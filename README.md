# Swiss travel concierge: a verified model of its decision logic

The application is a travel concierge. A Next.js frontend talks to a FastAPI backend:

- a chat page leads the traveller through a fixed dialogue (request, travellers, date, flights) to a generated itinerary, which can be improved, customised per day, saved and finally booked;
- the booking card sums the activities and sends them to Stripe or PayPal;
- a ride can be booked and followed on a map through a five-state lifecycle;
- accounts register, sign in with a bearer token, edit their profile, change their password through an e-mailed code, and turn two-factor authentication on and off;
- chat sessions belong to the user who created them.

This project models the parts of that system that make decisions and proves what those decisions guarantee. There is one Dafny module per core source file.

| module | file | source |
|---|---|---|
| `Concierge` | concierge.dfy | frontend/app/page.tsx |
| `BookingSummary` | booking_summary.dfy | frontend/components/BookingSummaryCard.tsx |
| `CarsHero` | cars_hero.dfy | frontend/components/CarsHero.tsx |
| `RideBookingMap` | ride_booking_map.dfy | frontend/components/RideBookingMap.tsx |
| `RideBookingCard` | ride_booking_card.dfy | frontend/components/RideBookingCard.tsx |
| `TestChat` | test_chat.dfy | frontend/components/NewTestChat.tsx |
| `ChatMessage` | chat_message.dfy | frontend/components/ChatMessage.tsx |
| `CustomizeModal` | customize_modal.dfy | frontend/components/CustomizeModal.tsx |
| `EmotionalIndicator` | emotional_indicator.dfy | frontend/components/EmotionalIndicator.tsx |
| `Profile` | profile.dfy | frontend/app/profile/page.tsx |
| `AuthContext` | auth_context.dfy | frontend/context/AuthContext.tsx |
| `LoginPage` | login_page.dfy | frontend/app/login/page.tsx |
| `ChangePassword` | change_password.dfy | frontend/components/ChangePasswordCard.tsx |
| `ResetPassword` | reset_password.dfy | frontend/app/reset-password/page.tsx |
| `AuthRoutes` | auth_routes.dfy | backend/auth/routes.py |
| `UsersRoutes` | users_routes.dfy | backend/users/routes.py |
| `ChatRoutes` | chat_routes.dfy | backend/chat/routes.py |

Shared modules:

- `Wrappers`: `Option` and `Result`.
- `Types`: the shapes of frontend/lib/types.ts.
- `Http`: the outcome of a request, and the `err.response?.data?.detail || fallback` idiom.
- `Text`: the JavaScript and Python string operations the core uses, such as trim, split on a character or on white space, join, `parseInt`, ASCII case mapping, replace-every-occurrence and the UTF-8 and UTF-16 lengths.

How the model is built:

- **Components become classes.** Each React component or page that keeps state is a `class` whose fields are its `useState` variables. Each handler is a method.
  - A method's `ensures` ties its new state to a pure function of the old state, for example `Snapshot() == Prompt(old(Snapshot()), prompt, …)`.
  - The lemmas about that function state what the source promises.
- **Awaited requests are split in two.** An `async` handler becomes a method for the part before the request, which returns the request it sends, and a method for the part after it (`On…Settled`, `On…Resolved`), which takes the request's outcome as an input value.
- **State updates are sequential.** React `setState` calls apply immediately, one after another.
- **Backend routes act on a user table.** The routes act on a table of accounts keyed by e-mail.
- **Crypto is abstract.** The model relies only on these properties:
  - bcrypt is modelled as `Digest`: a password verifies against a hash exactly when the hash was made from it;
  - encoding and decoding a JWT are function parameters;
  - the TOTP check is a function parameter;
  - random values (the reset code, the 2FA secret, the session uuid, the driver's start point) are inputs.
- **Time is an input.** Clock readings, elapsed animation times and timer firings are inputs or events.

## Model

| member | source | states |
|---|---|---|
| Concierge.LastItineraryIsMostRecent | frontend/app/page.tsx:92 | The result is absent exactly when no message carries an itinerary; otherwise it is the itinerary of a message after which no message carries one (the most recent). |
| Concierge.LastItineraryAfterPlain | frontend/app/page.tsx:61 | Appending a message without an itinerary leaves the last itinerary as it was. |
| Concierge.ConfirmationIgnoresCase | frontend/app/page.tsx:88 | The confirmation check gives the same answer for a prompt and its upper-cased form. |
| Concierge.YesConfirms | frontend/app/page.tsx:88 | Any prompt containing "yes", with anything around it, confirms the plan. |
| Concierge.TravelersOf | frontend/app/page.tsx:81 | The number of travellers is never 0: it is the parsed integer when that is non-zero, and 1 when parsing fails or gives 0. |
| Concierge.TravelersOfNumber | frontend/app/page.tsx:81 | Typing a non-zero number records exactly that number (in JavaScript, for magnitudes below 2^53). |
| Concierge.FullPrompt | frontend/app/page.tsx:107-110 | With a previous itinerary and non-empty feedback the prompt quotes the feedback; otherwise it is the fresh four-detail prompt. |
| Concierge.NonBlankDaysKeeps | frontend/app/page.tsx:142 | The kept days are exactly the non-blank days of the input: every kept day is non-blank and from the input, and every non-blank input day is kept. |
| Concierge.NonBlankIsTrimTest | frontend/app/page.tsx:142 | A day counts as non-blank exactly when its trimmed feedback is not empty. |
| Concierge.NoNonBlankDays | frontend/app/page.tsx:142 | When every day is white space, nothing is kept. |
| Concierge.NonBlankDaysAppend | frontend/app/page.tsx:142 | Filtering keeps order: the kept days of a concatenation are those of the first part followed by those of the second. |
| Concierge.BlankDayOmitted | frontend/app/page.tsx:142 | A day whose feedback is only white space adds nothing to the prompt. |
| Concierge.DayClauses | frontend/app/page.tsx:142 | One clause per kept day, in order. |
| Concierge.FeedbackPromptShape | frontend/app/page.tsx:142 | The prompt has one day clause per non-blank day and none for a blank one, no more clauses than days, and the clauses follow the form's order: splitting the form splits the clauses at the same place. |
| Concierge.FeedbackPromptAllBlank | frontend/app/page.tsx:142 | With every day blank the day part of the prompt is empty. |
| Concierge.InitialValid | frontend/app/page.tsx:39-49 | A new session holds only the welcome message in the first stage, and satisfies the page invariant. |
| Concierge.SetStageAppends | frontend/app/page.tsx:55-72 | The stage effect sets the stage and only ever appends messages; saved trips, requests, loading and details are untouched. |
| Concierge.PromptAppendsUserMessage | frontend/app/page.tsx:74-103 | Every prompt appends the user's message with the prompt text ahead of anything else it adds. The one exception is the lost-context restart, which leaves only the welcome message of a new session. |
| Concierge.QuestionStagesAdvance | frontend/app/page.tsx:78-86 | The four question stages advance one step each and record mainQuery, travelers, date and flights in turn, adding the next question. The flights answer starts a generation with the fresh prompt. |
| Concierge.PromptIgnoredWhileBusy | frontend/app/page.tsx:77-102 | While generating, or after confirmation, a prompt changes nothing but the message list, to which it adds the user's message. |
| Concierge.ConfirmationStage | frontend/app/page.tsx:59-90 | A confirming prompt moves to PLAN_CONFIRMED. The summary is shown and the plan finalised exactly when an earlier message carries an itinerary. |
| Concierge.RegenerationStage | frontend/app/page.tsx:91-95 | Any other prompt, when an itinerary exists, regenerates from the last itinerary with the prompt as feedback. |
| Concierge.LostContextRestarts | frontend/app/page.tsx:43-98 | Any other prompt without an itinerary starts a new session. The prompt and the lost-context notice are replaced by the welcome message, while saved trips and pending requests stay. |
| Concierge.ResolveOutcomes | frontend/app/page.tsx:111-124 | Loading is off after every outcome. A draft appends the itinerary message and then the follow-up question, and awaits improvements. A failure appends one error message and returns to the first stage. A response without a draft leaves stage and messages unchanged. |
| Concierge.SaveTripKeepsIdsUnique | frontend/app/page.tsx:127-134 | Saved ids stay distinct and the trip is saved afterwards. An id already saved only shows the popup; a new id is appended exactly once. |
| Concierge.SaveTripTwice | frontend/app/page.tsx:127-134 | Saving the same itinerary twice at the same moment leaves the same saved list as saving it once. |
| Concierge.SaveCustomizationEffect | frontend/app/page.tsx:141-149 | A customisation always appends the user's change request. It regenerates with the feedback prompt only when an itinerary is on the page; otherwise stage and requests are unchanged. |
| Concierge.PromptValid | frontend/app/page.tsx:74-103 | Every prompt preserves the page invariant. |
| Concierge.Concierge.constructor | frontend/app/page.tsx:39-41 | Mounting starts a new session. |
| Concierge.Concierge.StartNewSession | frontend/app/page.tsx:43-49 | The page state becomes a new session: a fresh id, the welcome message, the first stage, no details, not finalised. |
| Concierge.Concierge.AddMessage | frontend/app/page.tsx:51-53 | The message is appended; nothing else changes. |
| Concierge.Concierge.ChangeStage | frontend/app/page.tsx:55-72 | Setting the stage runs the stage effect when the stage changes. |
| Concierge.Concierge.GenerateItinerary | frontend/app/page.tsx:105-110 | Loading turns on and the prompt built from the details, previous itinerary and feedback is queued. |
| Concierge.Concierge.HandleNewPrompt | frontend/app/page.tsx:74-103 | The new state is the prompt transition of the old state, and the page invariant is kept. |
| Concierge.Concierge.HandleImprovement | frontend/app/page.tsx:87-101 | The new state is the improvement-stage transition of the old state. |
| Concierge.Concierge.OnGenerationResolved | frontend/app/page.tsx:111-124 | The k-th pending generation settles as the resolve transition says, and the invariant is kept. |
| Concierge.Concierge.HandleSaveTrip | frontend/app/page.tsx:127-134 | The new state is the save-trip transition, and the invariant is kept. |
| Concierge.Concierge.OnSavedPopupTimeout | frontend/app/page.tsx:130 | The timer hides the "already saved" popup and changes nothing else. |
| Concierge.Concierge.HandleSaveCustomization | frontend/app/page.tsx:141-149 | The new state is the customisation transition, and the invariant is kept. |
| BookingSummary.FlattenAppend | frontend/components/BookingSummaryCard.tsx:24-26 | Flattening keeps itinerary order: it distributes over concatenation of days. |
| BookingSummary.FlattenMembers | frontend/components/BookingSummaryCard.tsx:25 | An activity is in the list exactly when some day holds it. |
| BookingSummary.TotalAppend | frontend/components/BookingSummaryCard.tsx:28 | The total of a concatenation is the sum of the totals. |
| BookingSummary.Remove | frontend/components/BookingSummaryCard.tsx:31-33 | An activity survives removal exactly when it is in the list and is not the removed one. The list never grows. |
| BookingSummary.RemoveAppend | frontend/components/BookingSummaryCard.tsx:32 | Removal keeps the survivors' relative order: it distributes over concatenation. |
| BookingSummary.RemoveAbsent | frontend/components/BookingSummaryCard.tsx:32 | Removing an activity that is not in the list changes nothing. |
| BookingSummary.RemoveKeepsDistinct | frontend/components/BookingSummaryCard.tsx:32 | Removal keeps the identities of the list distinct. |
| BookingSummary.RemoveOne | frontend/components/BookingSummaryCard.tsx:32 | With distinct identities, removing the k-th activity leaves exactly the others, in order. |
| BookingSummary.RemoveOneTotal | frontend/components/BookingSummaryCard.tsx:28-33 | Removing an activity lowers the total by exactly its price. |
| BookingSummary.Displayed | frontend/components/BookingSummaryCard.tsx:29 | The shown rows are a prefix of the list: all of it when expanded, min(3, n) rows when collapsed. |
| BookingSummary.ToggleLabel | frontend/components/BookingSummaryCard.tsx:75-77 | The toggle exists exactly when there are more than three activities. It reads "+ k more items" with k = n - 3 when collapsed, and "Show Less" when expanded. |
| BookingSummary.CollapsedAccountsForAll | frontend/components/BookingSummaryCard.tsx:29-77 | Collapsed, the shown rows followed by the k hidden ones are the whole list. |
| BookingSummary.LineItems | frontend/components/BookingSummaryCard.tsx:40-44 | One line item per activity, in order, named by its description, with amount price·100 and quantity 1. |
| BookingSummary.LineItemsCharge | frontend/components/BookingSummaryCard.tsx:28-44 | Stripe is asked to charge exactly 100 times the card total. |
| BookingSummary.BookingCard.constructor | frontend/components/BookingSummaryCard.tsx:20-26 | The card starts with the flattened itinerary, collapsed, not loading and without error. Its invariant holds: every listed activity is from the itinerary, and ids are distinct when the itinerary's are. |
| BookingSummary.BookingCard.OnItineraryChanged | frontend/components/BookingSummaryCard.tsx:24-26 | A new itinerary rebuilds the list from it. |
| BookingSummary.BookingCard.HandleRemoveActivity | frontend/components/BookingSummaryCard.tsx:31-33 | The list becomes the removal of the chosen activity, keeping the invariant. When the itinerary's ids are distinct, removing the k-th listed item leaves exactly the others, in order, and the total drops by its price. |
| BookingSummary.BookingCard.ToggleExpanded | frontend/components/BookingSummaryCard.tsx:75-76 | The toggle flips the expanded flag. |
| BookingSummary.BookingCard.HandleStripeCheckout | frontend/components/BookingSummaryCard.tsx:35-128 | Allowed only when neither payment is loading and activities remain. It loads "stripe", clears the error, sends the line items of the current activities, and leaves both buttons disabled. |
| BookingSummary.BookingCard.OnStripeResolved | frontend/components/BookingSummaryCard.tsx:46-56 | A non-empty url redirects and keeps loading on. No url sets the Stripe error and clears loading. |
| BookingSummary.BookingCard.CreatePayPalOrder | frontend/components/BookingSummaryCard.tsx:91-100 | Allowed only when the buttons are enabled. It loads "paypal", clears the error, and sends the total with two decimals in CHF. |
| BookingSummary.BookingCard.OnCreateOrderFailed | frontend/components/BookingSummaryCard.tsx:101-105 | A failed order creation shows its error. |
| BookingSummary.BookingCard.OnApprove | frontend/components/BookingSummaryCard.tsx:107-118 | Capture is requested for the order and loading ends whatever the outcome. A failed capture shows its error. |
| BookingSummary.BookingCard.OnPayPalError | frontend/components/BookingSummaryCard.tsx:119-123 | A PayPal error shows its message and ends loading. |
| BookingSummary.BookingCard.OnPayPalCancel | frontend/components/BookingSummaryCard.tsx:124-126 | A cancel ends loading. |
| CarsHero.NextIndex | frontend/components/CarsHero.tsx:104 | The next slide stays in [0, n) and wraps from the last slide to the first. |
| CarsHero.PrevIndex | frontend/components/CarsHero.tsx:115 | The previous slide stays in [0, n) and wraps from the first slide to the last. |
| CarsHero.NextPrevInverse | frontend/components/CarsHero.tsx:104-115 | A step forward and a step back cancel, in either order. |
| CarsHero.Offset | frontend/components/CarsHero.tsx:122 | The distance ahead of the current slide lies in [0, n) and is the difference taken around the ring. |
| CarsHero.IndexAt | frontend/components/CarsHero.tsx:121-129 | Each visible position falls on a valid index. |
| CarsHero.CurrentIsCentre | frontend/components/CarsHero.tsx:123 | The current slide gets pos2. |
| CarsHero.PositionsAreUnique | frontend/components/CarsHero.tsx:121-129 | With at least five slides, an index gets a visible position exactly when it is that position's index, so each of pos1 to pos5 goes to exactly one slide. |
| CarsHero.NothingHiddenWithFive | frontend/components/CarsHero.tsx:121-129 | With the five cars no slide is hidden. |
| CarsHero.FarSlidesHidden | frontend/components/CarsHero.tsx:128 | With more than five slides, a slide at least three steps away on both sides is hidden. |
| CarsHero.StartValid | frontend/components/CarsHero.tsx:99-113 | Starting a move keeps the carousel well formed. While animating, a move changes nothing. |
| CarsHero.SettleValid | frontend/components/CarsHero.tsx:103-118 | The timeout keeps the carousel well formed, resets the direction and ends the animation. |
| CarsHero.RoundTrip | frontend/components/CarsHero.tsx:99-119 | A completed next followed by a completed prev returns to the starting slide, and the other way round. |
| CarsHero.Positions | frontend/components/CarsHero.tsx:134-135 | For the five cars every slide is drawn at its own position and the current one in the centre. |
| CarsHero.CarsSlider.constructor | frontend/components/CarsHero.tsx:95 | The slider starts at the first slide, not animating, without direction. |
| CarsHero.CarsSlider.Next | frontend/components/CarsHero.tsx:99-102 | Next starts a forward move, or does nothing while animating. |
| CarsHero.CarsSlider.Prev | frontend/components/CarsHero.tsx:110-113 | Prev starts a backward move, or does nothing while animating. |
| CarsHero.CarsSlider.OnAnimationTimeout | frontend/components/CarsHero.tsx:97-118 | The timeout moves the slide, clears the direction and ends the animation. |
| CarsHero.CarsSlider.SeeMore | frontend/components/CarsHero.tsx:141 | The detail view opens. |
| CarsHero.CarsSlider.Back | frontend/components/CarsHero.tsx:173 | The detail view closes. |
| RideBookingMap.FrameIndex | frontend/components/RideBookingMap.tsx:154-155 | From the duration on, the index is n - 1. Before it, the index is the floor of elapsed·(n-1)/duration, stated by the bounds on both sides. |
| RideBookingMap.FrameIndexInRange | frontend/components/RideBookingMap.tsx:154-156 | For a route of at least one point the index is a valid route index. |
| RideBookingMap.FrameIndexMonotone | frontend/components/RideBookingMap.tsx:154-157 | The index never decreases as elapsed time grows, so the car never moves backwards. |
| RideBookingMap.InitialValid | frontend/components/RideBookingMap.tsx:25-30 | The ride starts in searching with both flags down, and is well formed. |
| RideBookingMap.NextValid | frontend/components/RideBookingMap.tsx:69-185 | Every enabled event keeps the ride well formed. |
| RideBookingMap.NextMovesForward | frontend/components/RideBookingMap.tsx:70-179 | Each event keeps the state or moves it exactly one step forward along searching, driverEnRoute, arrived, inRide, completed. |
| RideBookingMap.CompletedIsFinal | frontend/components/RideBookingMap.tsx:179 | Completed has no outgoing transition. |
| RideBookingMap.LeavingArrivedNeedsBothFlags | frontend/components/RideBookingMap.tsx:169-173 | Leaving arrived requires both flags and leads to inRide. |
| RideBookingMap.FlagsOnlyRise | frontend/components/RideBookingMap.tsx:29-232 | No event lowers a readiness flag. |
| RideBookingMap.ReadyClickTwice | frontend/components/RideBookingMap.tsx:226-232 | Pressing a ready button a second time changes nothing. |
| RideBookingMap.BothFlagsInEitherOrder | frontend/components/RideBookingMap.tsx:169-232 | On arrival, one flag alone keeps the ride waiting; both, in either order, start it. |
| RideBookingMap.LegTimings | frontend/components/RideBookingMap.tsx:104-179 | The driver leg animates for 20 s and ends in arrived; the travel leg animates for 25 s from pickup to destination and ends in completed. |
| RideBookingMap.FramesBeforeEnd | frontend/components/RideBookingMap.tsx:159-160 | Frames before the duration keep the animation pending and leave the state unchanged. |
| RideBookingMap.FinishOnFirstFullFrame | frontend/components/RideBookingMap.tsx:153-165 | onFinish runs exactly once, on the first frame that reaches the duration. After it no frame is pending and the state is the leg's end, whatever frames follow. |
| RideBookingMap.DirectionsPath | frontend/components/RideBookingMap.tsx:80-82 | The directions path is "startLon,startLat;endLon,endLat" followed by the query. Splitting it gives the four coordinates back in order. |
| RideBookingMap.RideMap.constructor | frontend/components/RideBookingMap.tsx:22-31 | The map starts in the initial ride state. |
| RideBookingMap.RideMap.OnDispatchTimer | frontend/components/RideBookingMap.tsx:69-104 | The dispatch timer is the searching-to-driverEnRoute transition: the car is placed and the driver's route requested. |
| RideBookingMap.RideMap.OnRouteResolved | frontend/components/RideBookingMap.tsx:104-179 | The awaited route starts the animation of the leg it was asked for. |
| RideBookingMap.RideMap.AnimateCar | frontend/components/RideBookingMap.tsx:144-165 | Without a car marker nothing is scheduled; otherwise an animation of that route, for durationSeconds·1000 ms from now, is pending. |
| RideBookingMap.RideMap.OnAnimationFrame | frontend/components/RideBookingMap.tsx:153-164 | One frame is the frame transition of the ride. |
| RideBookingMap.RideMap.OnDriverReady | frontend/components/RideBookingMap.tsx:226 | The driver button is the driver-ready transition. |
| RideBookingMap.RideMap.OnClientReady | frontend/components/RideBookingMap.tsx:232 | The client button is the client-ready transition. |
| RideBookingMap.RideMap.HandleClose | frontend/components/RideBookingMap.tsx:182-185 | Closing cancels only the pending frame. |
| RideBookingMap.RideMap.StartTravelWhenReady | frontend/components/RideBookingMap.tsx:169-180 | The readiness effect starts the ride exactly when the ride model says so. |
| RideBookingCard.PointTexts | frontend/components/RideBookingCard.tsx:22 | Each route point becomes its "lon,lat" text, in order. |
| RideBookingCard.PathOverlay | frontend/components/RideBookingCard.tsx:22 | The overlay is present exactly when a summary exists, and then encodes the route's points joined by ';'. |
| RideBookingCard.StaticMapUrlParts | frontend/components/RideBookingCard.tsx:16-25 | The URL lists the pickup pin (a) before the destination pin (b), each as "lon,lat", then the overlay, the size and the token. Without a summary the overlay is empty. |
| RideBookingCard.RouteTextRoundTrip | frontend/components/RideBookingCard.tsx:22 | The route text, split on ';' and then on ',', gives back the route's points in order. |
| RideBookingCard.CardBySummary | frontend/components/RideBookingCard.tsx:34-58 | With a summary the card is titled "Ride Completed" and shows the duration. Without one it is "Ride Booking" with the live-map button. The two never show together. |
| TestChat.LonLatOf | frontend/components/NewTestChat.tsx:18 | "lon,lat" is split on ',' and its first two pieces are the pair. |
| TestChat.LonLatOfPair | frontend/components/NewTestChat.tsx:18 | A pair written as "lon,lat" reads back as that pair. |
| TestChat.WaypointsOf | frontend/components/NewTestChat.tsx:17-20 | One waypoint per argument, in order, each that argument's pair. |
| TestChat.ToolOf | frontend/components/NewTestChat.tsx:14-58 | A known name selects its tool; any other name selects the default branch. |
| TestChat.ToolOfName | frontend/components/NewTestChat.tsx:14-58 | Each tool's own name selects it, so no two tools share a name. |
| TestChat.ToolOfIs | frontend/components/NewTestChat.tsx:14-58 | A name selects a known tool exactly when it is that tool's name. |
| TestChat.ToolOfUnknown | frontend/components/NewTestChat.tsx:58 | An unknown name selects the default branch. |
| TestChat.InputFor | frontend/components/NewTestChat.tsx:14-65 | Building the input fails exactly for isochrone or reverse geocoding without an argument, where the source throws a TypeError. Otherwise each tool gets its input. |
| TestChat.TokensOfCommand | frontend/components/NewTestChat.tsx:11 | "name arg1 … argk" splits into exactly that name and those arguments. |
| TestChat.ParseCommandOf | frontend/components/NewTestChat.tsx:10-67 | A command whose tokens are a name and some arguments is the call of the tool that name selects, returned under that name with exactly those arguments. It fails exactly when building that input fails. |
| TestChat.ParseTypedCommand | frontend/components/NewTestChat.tsx:10-12 | The typed command "name arg1 … argk", words separated by single spaces, is interpreted as exactly that name and those arguments. |
| TestChat.DirectionsWaypoints | frontend/components/NewTestChat.tsx:15-22 | The name directions_tool selects the directions branch. The tokens directions_tool, a1 … ak give one waypoint per argument, in argument order. |
| TestChat.IsochroneInput | frontend/components/NewTestChat.tsx:24-31 | The name isochrone_tool selects the isochrone branch. The tokens isochrone_tool, location, minutes give the location from the first argument and a one-element minutes list holding parseInt of the second. |
| TestChat.MissingArgumentFails | frontend/components/NewTestChat.tsx:25-34 | A bare tool name fails exactly for isochrone and reverse geocoding, with the TypeError's message. |
| TestChat.SearchTextRejoined | frontend/components/NewTestChat.tsx:41-43 | The name search_and_geocode_tool selects the search branch. The search text is the arguments re-joined with single spaces. |
| TestChat.CategorySearchInput | frontend/components/NewTestChat.tsx:45-51 | For category_search_tool the query is the first argument, and a location is added exactly when a second argument exists. |
| TestChat.UnknownToolInput | frontend/components/NewTestChat.tsx:58-64 | A name no tool has selects the default branch. It gets the JSON parsed from the re-joined arguments, or the empty input when parsing fails. |
| TestChat.RejectionText | frontend/components/NewTestChat.tsx:99-102 | A rejected request's line is the server detail, or "Error: " and the status text. |
| TestChat.ParseReplies | frontend/components/NewTestChat.tsx:90-117 | A failed parse adds exactly one bot line with the error; a successful one adds none. |
| TestChat.Requests | frontend/components/NewTestChat.tsx:93-97 | A successful parse sends exactly its call; a failed one sends nothing. |
| TestChat.SendIgnoresBlank | frontend/components/NewTestChat.tsx:84 | A blank input changes nothing. |
| TestChat.SubmitEffect | frontend/components/NewTestChat.tsx:86-117 | A submit appends the user's line and clears the input. Then the parsed call is sent, or the parse error becomes exactly one bot line and nothing is sent. |
| TestChat.RespondEffect | frontend/components/NewTestChat.tsx:99-117 | A response adds exactly one bot line and settles its request, keeping the others in order. Only an answered request changes the map data. |
| TestChat.TestChatPanel.constructor | frontend/components/NewTestChat.tsx:70-72 | The panel starts empty. |
| TestChat.TestChatPanel.TypeInput | frontend/components/NewTestChat.tsx:71 | Typing sets the input. |
| TestChat.TestChatPanel.SendMessage | frontend/components/NewTestChat.tsx:83-97 | A blank input is ignored; otherwise the submit effect of the command's parse. |
| TestChat.TestChatPanel.Post | frontend/components/NewTestChat.tsx:86-97 | The state updates of a submitted command, given its parse. |
| TestChat.TestChatPanel.OnToolResponse | frontend/components/NewTestChat.tsx:99-117 | The k-th request settles with the response's line. |
| ChatMessage.AuthPromptFirst | frontend/components/ChatMessage.tsx:24-33 | A message with an auth prompt shows the sign-in card whatever else it carries. |
| ChatMessage.AiPriority | frontend/components/ChatMessage.tsx:36-70 | For the assistant: ride card, then booking card, then a non-empty itinerary. Each is chosen exactly when the earlier ones do not apply. |
| ChatMessage.EmptyItineraryNotShown | frontend/components/ChatMessage.tsx:70 | An empty itinerary never selects the itinerary card. |
| ChatMessage.EmptyBookingListShown | frontend/components/ChatMessage.tsx:55 | An empty booking list still selects the booking card, because an empty array is truthy. |
| ChatMessage.CustomizationOnlyForUser | frontend/components/ChatMessage.tsx:84 | The customisation view is chosen only for user messages, and always for those carrying a request. |
| ChatMessage.PlainMessages | frontend/components/ChatMessage.tsx:98-122 | A plain message with empty text draws nothing. Otherwise it draws a bubble on the user's side for the user and the other side for the assistant. |
| ChatMessage.NothingOnlyForEmptyText | frontend/components/ChatMessage.tsx:98 | Nothing is drawn exactly for plain messages with empty text. |
| CustomizeModal.EmptyFeedback | frontend/components/CustomizeModal.tsx:20-22 | One empty entry per itinerary day, in itinerary order. |
| CustomizeModal.UpdateDay | frontend/components/CustomizeModal.tsx:24-28 | Same length; the entries of that day get the text, and every other entry is kept. |
| CustomizeModal.UpdateDayEffect | frontend/components/CustomizeModal.tsx:24-28 | Editing day d rewrites exactly the entries of day d. Days, order and all other entries stay. |
| CustomizeModal.UpdateDayLastWins | frontend/components/CustomizeModal.tsx:24-28 | The last edit of a day is the one that counts. |
| CustomizeModal.UpdateDaysCommute | frontend/components/CustomizeModal.tsx:24-28 | Edits of two different days commute. |
| CustomizeModal.UpdateUnknownDay | frontend/components/CustomizeModal.tsx:26 | Editing a day the itinerary does not have changes nothing. |
| CustomizeModal.UntouchedFormPrompt | frontend/components/CustomizeModal.tsx:20-31 | An untouched form gives a customisation prompt with the general text and no day clause. |
| CustomizeModal.Shown | frontend/components/CustomizeModal.tsx:38-61 | In read-only mode the shown values are the given feedback. Otherwise they are the values being edited. |
| CustomizeModal.ReadOnlyIgnoresEdits | frontend/components/CustomizeModal.tsx:38-61 | In read-only mode the shown values do not depend on the edit state. |
| CustomizeModal.EntriesMatchDaysKept | frontend/components/CustomizeModal.tsx:19-35 | Mounting, editing a day and saving each leave one entry per day of the current itinerary, in its order. |
| CustomizeModal.FirstCustomizeHandsNoDays | frontend/app/page.tsx:35-186 | The dialog is mounted with the page's initial `[]` itinerary, and opening it on a non-empty itinerary only changes the prop. After that it shows no day field, its entries do not match the days, and a save hands over no day feedback whatever is edited. |
| CustomizeModal.OneDialogBehind | frontend/components/CustomizeModal.tsx:30-35 | After a save the entries are those of the itinerary at save time. A dialog opened next on another itinerary shows and hands over those entries, and they match its days exactly when the day numbers are the same. |
| CustomizeModal.ReseededMatchesDays | frontend/components/CustomizeModal.tsx:20-35 | Corrected dialog that re-seeds on a new itinerary prop: the entries always match the current days. An untouched save after opening on an itinerary hands over one empty entry per day. |
| CustomizeModal.CustomizeDialog.constructor | frontend/components/CustomizeModal.tsx:19-22 | The dialog starts with empty general feedback and one empty entry per day of the mount-time itinerary. |
| CustomizeModal.CustomizeDialog.OnProps | frontend/app/page.tsx:135-186 | New props from the page change the itinerary and the read-only feedback, and leave the edit state as it was. |
| CustomizeModal.CustomizeDialog.SetGeneralFeedback | frontend/components/CustomizeModal.tsx:51-56 | Typing in edit mode sets the general feedback; in read-only mode the textarea takes no input. Nothing else changes. |
| CustomizeModal.CustomizeDialog.HandleDailyFeedbackChange | frontend/components/CustomizeModal.tsx:24-72 | In edit mode the day list becomes its update for that day, with no precondition on the entries; in read-only mode the day textareas take no input. |
| CustomizeModal.CustomizeDialog.HandleSave | frontend/components/CustomizeModal.tsx:30-36 | Hands over the current general and daily feedback and asks to close. It resets the form to empty general text and empty entries for the itinerary prop current at save time. |
| CustomizeModal.CustomizeDialog.HandleClose | frontend/components/CustomizeModal.tsx:41-80 | The close control asks to close. |
| EmotionalIndicator.MoodIconIgnoresCase | frontend/components/EmotionalIndicator.tsx:13 | The icon of a mood equals the icon of its upper-cased and of its lower-cased form. |
| EmotionalIndicator.LowerOfLowercase | frontend/components/EmotionalIndicator.tsx:13 | A text without capitals lowers to itself. |
| EmotionalIndicator.NamedMoods | frontend/components/EmotionalIndicator.tsx:14-23 | Excited, adventurous and joyful show Sparkles; relaxed and calm show Smile; stressed and frustrated show Frown. |
| EmotionalIndicator.Relabel | frontend/components/EmotionalIndicator.tsx:13 | A mood shows the icon of the text it lowers to. |
| EmotionalIndicator.OtherMoodsMeh | frontend/components/EmotionalIndicator.tsx:24-25 | Any mood lowering to none of the seven named moods shows Meh. |
| EmotionalIndicator.BackendIconLabels | backend/agents/emotional.py:16-21 | The agent's capitalised labels Excited and Frustrated get Sparkles and Frown. |
| EmotionalIndicator.BackendNeutralLabels | backend/agents/emotional.py:16-21 | The agent's labels Neutral, Happy, Anxious and Inquisitive all show Meh. |
| Http.DetailOr | frontend/app/login/page.tsx:51 | The server's detail when it is a non-empty text, else the fallback. |
| Http.DetailOrNonEmpty | frontend/components/ChangePasswordCard.tsx:47-66 | With a non-empty fallback the shown error is never empty. |
| Profile.FirstLetter | frontend/app/profile/page.tsx:103-104 | At most one character: the first of a present, non-empty name, else nothing. |
| Profile.Initials | frontend/app/profile/page.tsx:102-106 | The upper-cased first letters of first name then last name when either exists, else the upper-cased first character of the e-mail. It fails exactly when the names and the e-mail are all empty. |
| Profile.InitialsOfFullName | frontend/app/profile/page.tsx:105 | Both names give two letters, the first name's first, and the e-mail does not matter. |
| Profile.AvatarSource | frontend/app/profile/page.tsx:122 | A selected picture's preview wins, then the stored picture. |
| Profile.WithField | frontend/app/profile/page.tsx:48-50 | The named field gets the value and the other two fields are kept. |
| Profile.FormExtensional | frontend/app/profile/page.tsx:23-27 | Two forms agreeing on every field are equal. |
| Profile.EditsCommute | frontend/app/profile/page.tsx:48-50 | Edits of different inputs commute; a later edit of the same input wins. |
| Profile.FormOf | frontend/app/profile/page.tsx:39-45 | Each field is the user's value, or '' when absent. |
| Profile.FormOfEmailOnly | frontend/app/profile/page.tsx:39-45 | A user with only an e-mail, as the auth context provides, fills the empty form. |
| Profile.AuthChanged | frontend/app/profile/page.tsx:35-46 | A finished load with no user redirects to /login. A user fills the form. Nothing else changes. |
| Profile.FileChanged | frontend/app/profile/page.tsx:52-58 | The first chosen file and its object URL are kept; choosing nothing changes nothing. |
| Profile.SaveRequests | frontend/app/profile/page.tsx:66-80 | Built from the form, file and token captured at submit time. The picture is uploaded first, exactly when a file was captured. The update is sent exactly when no upload failed before it, and the refresh exactly when the update also succeeded. |
| Profile.SettleSave | frontend/app/profile/page.tsx:82-91 | Submitting ends and the captured values are dropped. Completion sets the message and clears the current file and preview; failure sets the error and keeps them. |
| Profile.EditsDuringSaveNotSent | frontend/app/profile/page.tsx:60-80 | Typing or choosing a file while a save is out leaves the captured values alone, so the requests are those of the submit-time form, file and token. |
| Profile.FileChosenDuringSaveNotUploaded | frontend/app/profile/page.tsx:55-76 | A save submitted with no file sends no upload, even if a file is chosen while it runs. It sends the submit-time form. |
| Profile.SaveOutcome | frontend/app/profile/page.tsx:60-91 | After a save from rest exactly one of the two notices is shown: success exactly when the whole chain completes. |
| Profile.SaveCompletesAsWritten | frontend/app/profile/page.tsx:20-80 | As written, the save chain completes only as one whose refresh fails. |
| Profile.SaveAsWrittenAlwaysFails | frontend/app/profile/page.tsx:20-91 | As written, even with a file selected and upload and update both accepted (and sent), the page shows the error and keeps the file. |
| Profile.SaveSucceedsWithRefresh | frontend/app/profile/page.tsx:80-84 | With a refresh that resolves and all requests accepted, the save reports success and clears the chosen picture. |
| Profile.ProfilePage.constructor | frontend/app/profile/page.tsx:23-32 | The page starts with the empty form and no notices. |
| Profile.ProfilePage.OnAuthChange | frontend/app/profile/page.tsx:35-46 | The auth effect's transition. |
| Profile.ProfilePage.HandleInputChange | frontend/app/profile/page.tsx:48-50 | The form becomes the edit of the named field. Nothing else changes, not even during a save. |
| Profile.ProfilePage.HandleFileChange | frontend/app/profile/page.tsx:52-58 | The file-choice transition. |
| Profile.ProfilePage.HandleSaveAll | frontend/app/profile/page.tsx:60-156 | Allowed only when not submitting. Submitting starts, both notices are cleared, and the form, file and token are captured for the save. |
| Profile.ProfilePage.OnSaveSettled | frontend/app/profile/page.tsx:66-91 | The requests sent are the chain's, built from the values captured at submit time, whatever was edited since. The page settles with the chain's completion, including the refresh. |
| AuthContext.AfterLogout | frontend/context/AuthContext.tsx:64-69 | Logout removes the stored token, clears user and token, and navigates to /login. |
| AuthContext.AfterLogin | frontend/context/AuthContext.tsx:52-62 | A token that decodes is stored, becomes the token, signs in its subject, and navigates home. One that does not decode changes nothing. |
| AuthContext.UseAuth | frontend/context/AuthContext.tsx:78-84 | Outside a provider useAuth throws its error; inside one it returns the provider's session. |
| AuthContext.StartupOutcomes | frontend/context/AuthContext.tsx:28-50 | Loading ends on every branch. A decodable token with a subject that has not expired signs in that subject. Any other stored token logs out. With nothing stored nothing else changes. |
| AuthContext.NoExpiryNeverExpires | frontend/context/AuthContext.tsx:38 | A token without expiry is accepted or refused regardless of the clock. |
| AuthContext.ExpiryIsFinal | frontend/context/AuthContext.tsx:38 | A token expired at one time stays expired later. |
| AuthContext.LoginSurvivesReload | frontend/context/AuthContext.tsx:28-62 | After login with an acceptable token, a new provider restores the same user and token from storage. |
| AuthContext.LogoutSurvivesReload | frontend/context/AuthContext.tsx:28-69 | After logout a new provider starts signed out and does not navigate. |
| AuthContext.LoginWithBadToken | frontend/context/AuthContext.tsx:59-61 | A token that does not decode leaves an earlier sign-in in place. |
| AuthContext.AuthProvider.constructor | frontend/context/AuthContext.tsx:23-25 | The provider starts signed out and loading, with the stored token. |
| AuthContext.AuthProvider.Logout | frontend/context/AuthContext.tsx:64-69 | The logout transition. |
| AuthContext.AuthProvider.Login | frontend/context/AuthContext.tsx:52-62 | The login transition. |
| AuthContext.AuthProvider.Startup | frontend/context/AuthContext.tsx:28-50 | The start-up transition, at the given clock time. |
| LoginPage.PayloadOf | frontend/app/login/page.tsx:37-39 | The payload carries the e-mail and password, and a two-factor code exactly in the code stage. |
| LoginPage.TokenOf | frontend/app/login/page.tsx:44-48 | A token reaches `login` exactly from a success that does not ask for a code and carries a token. |
| LoginPage.SubmitOutcome | frontend/app/login/page.tsx:30-56 | Loading ends and the inputs are kept. A code request moves to the code stage. A failure shows the detail or the fallback, which is never empty, and keeps the stage. Otherwise the error is empty. |
| LoginPage.CodeStageIsFinal | frontend/app/login/page.tsx:44-48 | Once in the code stage the page never returns to credentials. |
| LoginPage.SignedInVisitorRedirected | frontend/app/login/page.tsx:24-60 | A loaded, signed-in visitor is sent home and never sees the form. A signed-out one sees it and stays. |
| LoginPage.LoginView.constructor | frontend/app/login/page.tsx:15-20 | The page starts in credentials with empty inputs. |
| LoginPage.LoginView.SetEmail | frontend/app/login/page.tsx:15 | Typing sets the e-mail. |
| LoginPage.LoginView.SetPassword | frontend/app/login/page.tsx:16 | Typing sets the password. |
| LoginPage.LoginView.SetTwoFactorCode | frontend/app/login/page.tsx:17 | Typing sets the code. |
| LoginPage.LoginView.OnAuthChange | frontend/app/login/page.tsx:24-28 | The redirect effect's transition. |
| LoginPage.LoginView.HandleSubmit | frontend/app/login/page.tsx:30-101 | Allowed only when not loading: the error clears, loading starts and the payload is sent. |
| LoginPage.LoginView.OnLoginSettled | frontend/app/login/page.tsx:44-55 | The page settles with the outcome, and the session's login runs exactly with the token the outcome hands over. |
| ChangePassword.RequestOf | frontend/components/ChangePasswordCard.tsx:29-43 | A code request is sent exactly when the local checks pass, and it carries the old and new passwords. |
| ChangePassword.Reset | frontend/components/ChangePasswordCard.tsx:76-84 | Back to the form stage with all four inputs and the error empty. The message and loading are kept. |
| ChangePassword.MismatchCheckedFirst | frontend/components/ChangePasswordCard.tsx:29-32 | Mismatched entries are reported whatever their length, and nothing is sent. |
| ChangePassword.ShortPasswordRejected | frontend/components/ChangePasswordCard.tsx:33-36 | An agreeing password shorter than six characters is refused and nothing is sent. |
| ChangePassword.ValidEntriesSent | frontend/components/ChangePasswordCard.tsx:38-43 | Valid entries send the old and new password with notices cleared and loading on. |
| ChangePassword.RequestOutcome | frontend/components/ChangePasswordCard.tsx:44-50 | The inputs are kept and loading ends. Success shows the server message and moves to confirming; failure stays in the form with an error. |
| ChangePassword.ConfirmOutcome | frontend/components/ChangePasswordCard.tsx:53-84 | Loading ends. Success keeps the server message, returns to the form and empties all four inputs. Failure stays in confirming with every input kept. |
| ChangePassword.ConfirmedMessageHidden | frontend/components/ChangePasswordCard.tsx:63-141 | After a successful confirmation the card is out of the confirming stage, so its message and the Done button are never shown. |
| ChangePassword.ChangePasswordCard.constructor | frontend/components/ChangePasswordCard.tsx:15-22 | The card starts in the form stage with everything empty. |
| ChangePassword.ChangePasswordCard.SetInputs | frontend/components/ChangePasswordCard.tsx:102-128 | Typing sets the four inputs. |
| ChangePassword.ChangePasswordCard.HandleRequestCode | frontend/components/ChangePasswordCard.tsx:24-114 | Allowed only when not loading: the local checks, then the request. |
| ChangePassword.ChangePasswordCard.OnRequestSettled | frontend/components/ChangePasswordCard.tsx:44-50 | The code request's outcome. |
| ChangePassword.ChangePasswordCard.ResetForm | frontend/components/ChangePasswordCard.tsx:76-84 | The card becomes its reset. |
| ChangePassword.ChangePasswordCard.HandleCancel | frontend/components/ChangePasswordCard.tsx:72-74 | Cancel resets exactly like resetForm. |
| ChangePassword.ChangePasswordCard.HandleFinalSubmit | frontend/components/ChangePasswordCard.tsx:53-62 | Loading starts, both notices clear, and the code and new password are sent. |
| ChangePassword.ChangePasswordCard.OnConfirmSettled | frontend/components/ChangePasswordCard.tsx:63-69 | The confirmation's outcome. |
| ResetPassword.Loaded | frontend/app/reset-password/page.tsx:22-26 | A missing or empty token sets the invalid-link error; otherwise nothing changes. |
| ResetPassword.RequestOf | frontend/app/reset-password/page.tsx:28-47 | A request is sent exactly when both checks pass, with the token and the new password. |
| ResetPassword.MismatchBeforeToken | frontend/app/reset-password/page.tsx:30-33 | Mismatched passwords are reported even without a token, and nothing is sent. |
| ResetPassword.MissingTokenRejected | frontend/app/reset-password/page.tsx:34-37 | Agreeing passwords without a token give "Reset token is missing." and nothing is sent. |
| ResetPassword.SubmitOutcome | frontend/app/reset-password/page.tsx:39-72 | Loading ends. Success stores the server message, and a non-empty one replaces the form. Failure shows the detail or fallback and keeps the form. |
| ResetPassword.ResetPasswordPage.constructor | frontend/app/reset-password/page.tsx:15-20 | The page starts with the query token and empty fields. |
| ResetPassword.ResetPasswordPage.OnTokenEffect | frontend/app/reset-password/page.tsx:22-26 | The load check's transition. |
| ResetPassword.ResetPasswordPage.SetEntries | frontend/app/reset-password/page.tsx:16-17 | Typing sets the two entries. |
| ResetPassword.ResetPasswordPage.HandleSubmit | frontend/app/reset-password/page.tsx:28-47 | The checks in order, then the request. |
| ResetPassword.ResetPasswordPage.OnResetSettled | frontend/app/reset-password/page.tsx:48-54 | The request's outcome. |
| AuthRoutes.HashOf | backend/auth/routes.py:21-25 | The password verifies against its hash, and no other password does. |
| AuthRoutes.AccessClaims | backend/auth/routes.py:27-32 | The claims are the given ones plus exp = now + 30 minutes. Every other claim is copied unchanged. |
| AuthRoutes.LongPasswordFirst | backend/auth/routes.py:39-43 | A password over 72 UTF-8 bytes is a 422, before the duplicate check, and the table is unchanged. |
| AuthRoutes.TakenEmailRefused | backend/auth/routes.py:45-47 | A registered e-mail is a 400 and the table is unchanged. |
| AuthRoutes.RegisterAdds | backend/auth/routes.py:49-56 | Exactly one row is added, for that e-mail and the hash of that password; the others are unchanged and the table stays valid. A bearer token for the e-mail is returned, and the password then signs in. |
| AuthRoutes.RegisterValid | backend/auth/routes.py:35-56 | Every register keeps the table valid. |
| AuthRoutes.LoginFailuresAlike | backend/auth/routes.py:60-66 | An unknown e-mail and a wrong password give the same 401. |
| AuthRoutes.LoginSucceeds | backend/auth/routes.py:68-69 | The right password gets a bearer token with the e-mail as subject, expiring 1800 s later. |
| AuthRoutes.LoginIgnoresSecondFactor | backend/auth/routes.py:58-69 | The answer depends neither on the two-factor code nor on whether the account has 2FA on. |
| AuthRoutes.UserTable.constructor | backend/auth/routes.py:35-56 | The table starts empty and valid. |
| AuthRoutes.UserTable.RegisterUser | backend/auth/routes.py:35-56 | The table and answer are those of the register transition, and the table stays valid. |
| AuthRoutes.UserTable.LoginUser | backend/auth/routes.py:58-69 | The answer is the login decision; the table is not modified. |
| UsersRoutes.StripBearerOfHeader | backend/users/routes.py:32 | "Bearer " + token gives back the token when it holds no further "Bearer ". |
| UsersRoutes.CurrentUserOutcomes | backend/users/routes.py:27-44 | A missing header is a 401. A token that does not decode, or has no subject, is a 401. An unknown subject is a 404. The row is found exactly when the token names a registered e-mail, and it is that e-mail's row. |
| UsersRoutes.SignedInTokenResolves | backend/users/routes.py:27-44 | A token from sign-in, sent back as "Bearer <token>", resolves to the signed-in row. |
| UsersRoutes.UpdateMe | backend/users/routes.py:57-59 | Every field the request sent is written; every other column is kept. |
| UsersRoutes.UpdateMeIdempotent | backend/users/routes.py:57-59 | An empty update changes nothing, and repeating an update changes nothing more. |
| UsersRoutes.AsUtc | backend/users/routes.py:122-123 | A stored naive time keeps its clock reading and is read as UTC. |
| UsersRoutes.RequestChangeOutcome | backend/users/routes.py:98-112 | A wrong old password is a 400 with the row unchanged. The right one stores the hash of the code, live for exactly ten minutes, and keeps the password. |
| UsersRoutes.DeadCodeFirst | backend/users/routes.py:125-133 | A missing or expired code is a 400 before the code is looked at, and nothing changes. |
| UsersRoutes.WrongCodeSecond | backend/users/routes.py:135-139 | A live but wrong code is a 400 before the new password's length is looked at. |
| UsersRoutes.LongNewPasswordThird | backend/users/routes.py:141-145 | The right live code with a new password over 72 bytes is a 422, and nothing changes. |
| UsersRoutes.NaiveExpiryIsUtc | backend/users/routes.py:121-128 | A naive stored expiry gives the same answer as the same reading in UTC. |
| UsersRoutes.ChangeRoundTrip | backend/users/routes.py:92-152 | A requested code sent back within ten minutes with a short enough new password installs that password and clears the code. The old password then fails, and so does reusing the code. |
| UsersRoutes.Generate | backend/users/routes.py:156-177 | It is refused with 400 exactly when 2FA is on. Otherwise it returns the fresh secret and its provisioning URI. |
| UsersRoutes.VerifySetupOutcome | backend/users/routes.py:186-193 | Only a valid code changes the row, and then exactly the secret and the enabled flag. |
| UsersRoutes.DisableOutcome | backend/users/routes.py:202-211 | 2FA off is a 400, then a wrong password is a 401, and either way nothing changes. Success clears both secret and flag. |
| UsersRoutes.EnableThenDisable | backend/users/routes.py:186-211 | Enabling and then disabling with the password restores a row that never had 2FA. |
| UsersRoutes.UpdateMeRoute | backend/users/routes.py:51-64 | The caller's row becomes its update; no other row changes and the table stays valid. |
| UsersRoutes.RequestChangeRoute | backend/users/routes.py:92-112 | The caller's row and the answer are those of the request transition; the table stays valid. |
| UsersRoutes.ConfirmChangeRoute | backend/users/routes.py:115-152 | The caller's row and the answer are those of the confirm transition; the table stays valid. |
| UsersRoutes.GenerateRoute | backend/users/routes.py:156-177 | The answer is the generate decision; nothing is written. |
| UsersRoutes.VerifySetupRoute | backend/users/routes.py:179-193 | The caller's row and the answer are those of the setup check; the table stays valid. |
| UsersRoutes.DisableRoute | backend/users/routes.py:195-211 | The caller's row and the answer are those of disabling; the table stays valid. |
| ChatRoutes.OwnedBy | backend/chat/routes.py:29 | Only the user's sessions, each as often as in the table. |
| ChatRoutes.Insert | backend/chat/routes.py:29 | Inserting adds exactly the new session and nothing else. |
| ChatRoutes.InsertNewestFirst | backend/chat/routes.py:29 | Inserting into a newest-first list keeps it newest first. |
| ChatRoutes.SortNewestFirst | backend/chat/routes.py:29 | The result is newest first and a permutation of the input. |
| ChatRoutes.ListSessionsSpec | backend/chat/routes.py:24-29 | The list holds only the caller's sessions, each as often as in the table, newest first. |
| ChatRoutes.OwnedByAppendOther | backend/chat/routes.py:29 | Another user's new session does not change the caller's list. |
| ChatRoutes.FindOwned | backend/chat/routes.py:37 | A found session has that id and owner; none is found exactly when no session has both. |
| ChatRoutes.MessagesOf | backend/chat/routes.py:40 | Exactly the messages of that session, each as often as it is stored. |
| ChatRoutes.MessagesOfAppend | backend/chat/routes.py:40 | Table order is kept: the session's messages in `a + b` are those in `a` followed by those in `b`. |
| ChatRoutes.GetMessagesSpec | backend/chat/routes.py:31-40 | A missing session and another user's session give the same 404. The caller's own session gives exactly its messages, each as often as stored, in table order. |
| ChatRoutes.GetMessagesGrows | backend/chat/routes.py:31-40 | Messages stored after a read only add to the end of what the same request returns. |
| ChatRoutes.ChatStore.constructor | backend/chat/routes.py:13-22 | The store starts empty. |
| ChatRoutes.ChatStore.CreateSession | backend/chat/routes.py:13-22 | Exactly one session is appended, owned by the caller and titled "New Chat", with an id no earlier session has. |
| ChatRoutes.CreateShowsInOwnList | backend/chat/routes.py:18-29 | A new session appears in its owner's list and leaves every other user's list unchanged. |
| Text.WhitespaceSplitOfJoin | frontend/components/NewTestChat.tsx:11 | Words joined with single spaces split back on white space into the same words. |
| Text.SplitPair | frontend/components/NewTestChat.tsx:18 | Two comma-free pieces joined by ',' split back into the two. |
| Text.SplitJoin | frontend/components/RideBookingCard.tsx:22 | Separator-free pieces joined by the separator split back into the same pieces. |
| Text.BlankIffAllSpace | frontend/app/page.tsx:142 | `trim()` gives the empty text exactly when every character is white space. |
| Text.ParseIntOfIntToString | frontend/app/page.tsx:81 | The model's exact parseInt gives back any rendered integer. JavaScript agrees for magnitudes below 2^53 (see Left out). |
| Text.Utf8Length | backend/auth/routes.py:39 | The UTF-8 length lies between one and four bytes per character. |
| Text.Utf16Length | frontend/components/ChangePasswordCard.tsx:33 | JavaScript's length lies between one and two units per character. |
| Text.ReplaceAllAbsent | backend/users/routes.py:32 | Replacing a pattern that does not occur leaves the text unchanged. |

## Left out

- Map rendering: the Mapbox map, markers, layers and `drawRoute` are drawing. `fetchRoute`'s answer is an input sequence of points.
- Timers and frames: `setTimeout`, `requestAnimationFrame` and `performance.now()` are events carrying a clock reading. React's batching of state updates is not modelled; each `setState` applies at once.
- The driver's random start offset (RideBookingMap.tsx:91-94) is an input point.
- RideBookingMap's `eta` state is declared but never set. There is no cancelled state, since `handleClose` only cancels the pending frame and a route that lands later still animates. Route-fetch errors are not handled by the source. None of these is modelled.
- Network calls: each axios or fetch call is the request value it sends and an outcome value (success with data, or failure with an optional detail). No transport is modelled.
- Http.DetailOr: a failure's `detail` is an optional text. FastAPI's 422 validation errors carry an array of error objects in `detail`, and `err.response?.data?.detail || fallback` then puts that array, not a text, into the page's error state. The model does not represent that case.
- Crypto: bcrypt is an injective digest without salt, so two hashes of the same password are equal in the model. JWT encoding and decoding are function parameters; `jwt.decode`'s own expiry check is part of the decoder. pyotp's TOTP check, the provisioning URI and the QR image are parameters. `random.randint` and `pyotp.random_base32` are inputs.
- Floating point: coordinates, prices with decimals, `toFixed(2)`, `toLocaleString` and `Number()` parsing are pre-rendered strings or integers. `ToFixed2` of an integer total appends ".00".
- Text.ParseInt: `parseInt` returns a double, and the model returns the exact integer of the digits. The two agree only for magnitudes below 2^53. Beyond that the source rounds to the nearest double, and a numeral too long for a double gives `Infinity`. So Text.ParseIntOfIntToString, Concierge.TravelersOf and Concierge.TravelersOfNumber hold in JavaScript only for such numbers, and the same applies to the isochrone minutes of TestChat.InputFor.
- Text: case mapping is ASCII; `encodeURIComponent` is an abstract encoder.
- Text.IsSpace: white space is the ASCII subset of JavaScript's `trim` and `\s` (space, tab, line feed, vertical tab, form feed, carriage return). U+00A0, U+2028, U+2029, U+FEFF and the other Unicode spaces count as text. So Text.BlankIffAllSpace, TestChat.SendIgnoresBlank, TestChat.TokensOfCommand, Concierge.NonBlankIsTrimTest and Concierge.NonBlankDaysKeeps treat a message or day made only of such characters as non-blank, where the browser treats it as blank.
- LoginPage.LoginView.HandleSubmit: the browser's `required` checks on the e-mail, password and code inputs (login/page.tsx:80-95) and the code's `maxLength={6}` are not modelled, so the model also sends requests with empty fields or a longer code, which the browser blocks.
- ChangePassword.ChangePasswordCard.HandleRequestCode: the `required` checks on the three password inputs (ChangePasswordCard.tsx:102-110) are not modelled. An empty old password is sent; empty new passwords are still refused by the length check.
- ChangePassword.ChangePasswordCard.HandleFinalSubmit: the code input's `required` and `maxLength={6}` (ChangePasswordCard.tsx:129-130) are not modelled, so the model sends an empty or longer code, which the browser blocks.
- ResetPassword.ResetPasswordPage.HandleSubmit: the `required` checks on the password inputs (reset-password/page.tsx:79-90) are not modelled, so the model sends an empty password, which the browser blocks.
- Profile: the form is limited to its three inputs (first_name, last_name, bio); an input with another name is not modelled.
- Concierge `handleOpenCustomizeModal` and `handleViewCustomization` (page.tsx:135-140) only pass new props to the dialog, which stays mounted; `CustomizeModal.CustomizeDialog.OnProps` models that prop change. The `isOpen` flag only hides the dialog and is not modelled.
- `upload_profile_picture` (users/routes.py:66-90) writes a file and stores its URL. `read_users_me` (47-49) returns the row `CurrentUser` finds. E-mail sending (users/routes.py:110) is not modelled.
- Chat messages are returned in table order (`session.messages` has no ordering). Sessions created at the same instant keep table order, since the database may return them in either.
- Concierge.ResolveOutcomes: a neural answer without an itinerary draft leaves the stage at GENERATING_ITINERARY with loading off, as the source does.
- Concierge.LastItinerary: `find(m => m.itinerary)` treats an empty itinerary array as present; the model does the same.
- Buttons disabled while a request is out are modelled as a `requires` on the handler (`!isLoading`, `!isSubmitting`, the payment buttons' `disabled`).
- LoginPage: the backend never answers `two_factor_required`, and `login_user` ignores the code. The code stage is therefore only reachable through a backend other than the one modelled.
- UsersRoutes.RequestChangeOutcome: `request_password_change` ignores `new_password`; the model takes it and does not use it, as the source does.
- UsersRoutes.Generate: `generate_two_factor_secret` stores nothing, and the setup check does not ask whether 2FA is already on; both as in the source.
- backend/auth/models.py declares fewer columns than the routes read and write. The account datatype has the columns the routes use.
- AuthRoutes.Register, AuthRoutes.Login, UsersRoutes.CurrentUser: e-mails are compared as exact strings. The source compares them in MySQL (`models.User.email == …`, backend/auth/database.py:14, backend/auth/models.py:10), whose default collation ignores case. So the model treats e-mails differing only in case as separate accounts: registering "A@x.com" beside "a@x.com" adds a row instead of answering 400, and logging in as "A@x.com" is a 401 instead of a token for the stored "a@x.com".
- The LLM agents, the MCP proxy, the payment SDK handlers, the database engine, and the presentational pages and components are outside the modelled core.

## Findings

| source | as written | input that shows it | evidently intended | confidence | as-written member | corrected member |
|---|---|---|---|---|---|---|
| frontend/app/profile/page.tsx:20, 80 | `fetchUserProfile` is read from `useAuth()`, but the auth context provides no such member, so `await fetchUserProfile()` throws a TypeError after the upload and the update have succeeded | a signed-in user selects a picture and saves, and the server accepts both the upload and the update | the profile is refreshed and "Profile updated successfully!" is shown, clearing the chosen picture | not executed | Profile.SaveAsWrittenAlwaysFails | Profile.SaveSucceedsWithRefresh |
| frontend/components/CustomizeModal.tsx:20-35 | the day entries are seeded from the `itinerary` prop only at mount and after a save, but the page mounts the dialog once with `[]` (page.tsx:35, 186) and opening it only changes the prop (page.tsx:136) | the first Customize on a trip with days: the dialog shows no day field and hands over `dailyFeedback: []`; later ones show the days of the itinerary of the previous save | each time the dialog is opened on an itinerary it shows one empty field per day of that itinerary and hands those entries over | not executed | CustomizeModal.FirstCustomizeHandsNoDays | CustomizeModal.ReseededMatchesDays |
