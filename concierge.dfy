/**
  The concierge conversation page (frontend/app/page.tsx): a staged dialogue
  that collects the trip details, asks the planning service for an
  itinerary, lets the traveller refine it and finally confirms it, plus the
  list of saved trips.

  `Page` is the page's state. Each handler is a function from the old state
  to the new one (with the stage-change effect applied when the stage
  changes), and the class `Concierge` performs the same updates in place.
  A request to the planning service is recorded as the prompt it carries;
  its outcome arrives later as an input.
*/
module Concierge {
  import opened Wrappers
  import opened Types
  import Text

  datatype Stage =
    | AwaitingInitialPrompt
    | AwaitingTravelers
    | AwaitingDate
    | AwaitingFlights
    | GeneratingItinerary
    | AwaitingImprovements
    | PlanConfirmed

  /** The partial PromptDetails record; `None` is an absent field. */
  datatype Details = Details(mainQuery: Option<string>, travelers: Option<int>, date: Option<string>, flights: Option<bool>)

  const NoDetails := Details(None, None, None, None)

  datatype Page = Page(
    messages: seq<Message>,
    savedTrips: seq<SavedTrip>,
    showSavedPopup: bool,
    isLoading: bool,
    sessionId: string,
    stage: Stage,
    details: Details,
    finalized: bool,
    requests: seq<string>)     // prompts sent to the planning service and not yet answered

  /** What the planning service answered: a response (with or without an itinerary draft) or a failure. */
  datatype Outcome = Responded(draft: Option<seq<ItineraryDay>>) | Failed

  const WelcomeText := "Welcome to your personal Swiss Concierge. How can I assist you with your travel plans today?"
  const TravelersQuestion := "That sounds wonderful! To help me plan the perfect trip, could you tell me how many people will be traveling?"
  const DateQuestion := "Great! And what are your preferred travel dates?"
  const FlightsQuestion := "Perfect. Have you already booked your flights? (Yes/No)"
  const SummaryText := "Excellent! I'm glad you're happy with the plan. Here is the final summary. You can proceed with the booking."
  const LostContextText := "I seem to have lost the context. Let's start a new plan."
  const FollowUpText := "How does this look? Are there any further adjustments you'd like, or shall we finalize this plan?"
  const ErrorText := "I'm sorry, I encountered an error. Please try again."
  const ChangesText := "I've requested some changes to the previous itinerary."
  const SavedTripDates := "5 Days \U{2022} Est. Dec 18-22"

  const ConfirmationTerms: seq<string> :=
    ["yes", "perfect", "looks good", "no more changes", "proceed", "checkout", "finalize", "confirm"]

  // -----------------------------------------------------------------------
  // Pure rules
  // -----------------------------------------------------------------------

  /** The itinerary of the most recent message that carries one. */
  function LastItinerary(ms: seq<Message>): Option<seq<ItineraryDay>>
    decreases |ms|
  {
    if |ms| == 0 then None
    else if ms[|ms| - 1].itinerary.Some? then ms[|ms| - 1].itinerary
    else LastItinerary(ms[..|ms| - 1])
  }

  /** It is absent exactly when no message carries one; otherwise no later message carries one. */
  lemma {:induction false} LastItineraryIsMostRecent(ms: seq<Message>)
    ensures LastItinerary(ms).None? <==> forall i :: 0 <= i < |ms| ==> ms[i].itinerary.None?
    ensures LastItinerary(ms).Some? ==> exists i :: 0 <= i < |ms| && ms[i].itinerary == LastItinerary(ms) &&
                                          forall j :: i < j < |ms| ==> ms[j].itinerary.None?
    decreases |ms|
  {
    if |ms| > 0 && ms[|ms| - 1].itinerary.None? {
      var init := ms[..|ms| - 1];
      LastItineraryIsMostRecent(init);
      assert forall i :: 0 <= i < |init| ==> init[i] == ms[i];
      if LastItinerary(init).Some? {
        var i :| 0 <= i < |init| && init[i].itinerary == LastItinerary(init) &&
                 forall j :: i < j < |init| ==> init[j].itinerary.None?;
        assert ms[i].itinerary == LastItinerary(ms);
      }
    }
  }

  /** Appending a message without an itinerary does not change the last itinerary. */
  lemma LastItineraryAfterPlain(ms: seq<Message>, m: Message)
    requires m.itinerary.None?
    ensures LastItinerary(ms + [m]) == LastItinerary(ms)
  {
    assert (ms + [m])[..|ms|] == ms;
  }

  /** The prompt confirms the plan when its lowercase form contains one of the eight terms. */
  predicate IsConfirmation(prompt: string) {
    exists k :: 0 <= k < |ConfirmationTerms| && Text.Contains(Text.Lower(prompt), ConfirmationTerms[k])
  }

  /** Confirmation does not depend on letter case. */
  lemma ConfirmationIgnoresCase(prompt: string)
    ensures IsConfirmation(Text.Upper(prompt)) == IsConfirmation(prompt)
  {
    Text.LowerForgetsCase(prompt);
  }

  /** Any prompt with the word "yes" somewhere in it, in any case, confirms the plan. */
  lemma YesConfirms(a: string, b: string)
    ensures IsConfirmation(Text.Lower(a) + "yes" + Text.Lower(b))
  {
    var s := Text.Lower(a) + "yes" + Text.Lower(b);
    assert forall i :: 0 <= i < |s| ==> s[i] == Text.LowerChar(s[i]);
    assert Text.Lower(s) == s;
    Text.ContainsInContext(Text.Lower(a), "yes", Text.Lower(b));
    assert ConfirmationTerms[0] == "yes";
  }

  /** `parseInt(prompt, 10) || 1`: the parsed number, with 1 for NaN and for 0. */
  function TravelersOf(prompt: string): (n: int)
    ensures n != 0
    ensures Text.ParseInt(prompt).Some? && Text.ParseInt(prompt).value != 0 ==> n == Text.ParseInt(prompt).value
    ensures Text.ParseInt(prompt).None? || Text.ParseInt(prompt) == Some(0) ==> n == 1
  {
    match Text.ParseInt(prompt)
    case Some(v) => if v == 0 then 1 else v
    case None => 1
  }

  /** A non-zero number typed as the answer is the number of travellers recorded. */
  lemma TravelersOfNumber(n: int)
    requires n != 0
    ensures TravelersOf(Text.IntToString(n)) == n
  {
    Text.ParseIntOfIntToString(n);
  }

  /** The flights answer is yes when the lowercase prompt contains "yes". */
  predicate FlightsOf(prompt: string) {
    Text.Contains(Text.Lower(prompt), "yes")
  }

  function ShowText(o: Option<string>): string {
    match o
    case Some(s) => s
    case None => "undefined"
  }

  function ShowNumber(o: Option<int>): string {
    match o
    case Some(n) => Text.IntToString(n)
    case None => "undefined"
  }

  const FreshIntro := "Plan a trip based on the following details:\n- Main Request: "
  const FreshTravelers := "\n- Number of Travelers: "
  const FreshDate := "\n- Departure Date: "
  const FreshFlights := "\n- Flights Booked: "

  /** The first-plan prompt. */
  function FreshPrompt(d: Details): string {
    FreshIntro + ShowText(d.mainQuery) + FreshTravelers + ShowNumber(d.travelers)
    + FreshDate + ShowText(d.date) + FreshFlights + (if d.flights == Some(true) then "Yes" else "No")
  }

  function Quote(s: string): string {
    "\"" + s + "\""
  }

  const ImproveIntro := "Please improve the following travel itinerary based on my feedback.\n\nOriginal Request Details:\n- Main Request: "
  const ImproveTravelers := "\n- Travelers: "
  const ImproveDate := "\n- Date: "
  const ImprovePrevious := "\n\nPrevious Itinerary:\n"
  const ImproveFeedback := "\n\nMy Feedback for Improvement:\n"

  function ImproveHead(d: Details, previousJson: string): string {
    ImproveIntro + ShowText(d.mainQuery) + ImproveTravelers + ShowNumber(d.travelers) + ImproveDate + ShowText(d.date)
    + ImprovePrevious + previousJson + ImproveFeedback
  }

  const ImproveTail := "\n\nGenerate a new, improved itinerary based on all this information."

  /** The improvement prompt; `previousJson` is the previous itinerary as JSON text. */
  function ImprovePrompt(d: Details, previousJson: string, feedback: string): string {
    ImproveHead(d, previousJson) + Quote(feedback) + ImproveTail
  }

  /** The prompt generateItinerary sends: the improvement form only with a previous itinerary and non-empty feedback. */
  function FullPrompt(d: Details, previous: Option<seq<ItineraryDay>>, feedback: string,
                      render: seq<ItineraryDay> -> string): (r: string)
    ensures previous.Some? && feedback != "" ==> Text.Contains(r, Quote(feedback))
    ensures previous.None? || feedback == "" ==> r == FreshPrompt(d)
  {
    if previous.Some? && feedback != "" then
      Text.ContainsInContext(ImproveHead(d, render(previous.value)), Quote(feedback), ImproveTail);
      ImprovePrompt(d, render(previous.value), feedback)
    else FreshPrompt(d)
  }

  /** A day's feedback counts when it has a character that is not white space. */
  predicate NonBlank(d: DayFeedback) {
    !Text.AllSpace(d.feedback)
  }

  /** That is the test `d.feedback.trim() !== ''`. */
  lemma NonBlankIsTrimTest(d: DayFeedback)
    ensures NonBlank(d) <==> Text.Trim(d.feedback) != []
  {
    Text.BlankIffAllSpace(d.feedback);
  }

  /** `dailyFeedback.filter(d => d.feedback.trim() !== '')`. */
  function NonBlankDays(ds: seq<DayFeedback>): seq<DayFeedback>
    decreases |ds|
  {
    if |ds| == 0 then []
    else if NonBlank(ds[0]) then [ds[0]] + NonBlankDays(ds[1..])
    else NonBlankDays(ds[1..])
  }

  /** The kept days are exactly the non-blank days of the input, and there are no more of them. */
  lemma {:induction false} NonBlankDaysKeeps(ds: seq<DayFeedback>)
    ensures |NonBlankDays(ds)| <= |ds|
    ensures forall i :: 0 <= i < |NonBlankDays(ds)| ==> NonBlank(NonBlankDays(ds)[i])
    ensures forall d :: d in NonBlankDays(ds) <==> d in ds && NonBlank(d)
    decreases |ds|
  {
    if |ds| > 0 {
      NonBlankDaysKeeps(ds[1..]);
      assert ds == [ds[0]] + ds[1..];
    }
  }

  /** Filtering keeps the order: the kept days of a + b are those of a, then those of b. */
  lemma {:induction false} NonBlankDaysAppend(a: seq<DayFeedback>, b: seq<DayFeedback>)
    ensures NonBlankDays(a + b) == NonBlankDays(a) + NonBlankDays(b)
    decreases |a|
  {
    if |a| > 0 {
      var ab := a + b;
      assert ab[0] == a[0] && ab[1..] == a[1..] + b;
      NonBlankDaysAppend(a[1..], b);
      if NonBlank(a[0]) {
        assert NonBlankDays(ab) == [a[0]] + NonBlankDays(a[1..] + b);
        assert NonBlankDays(a) + NonBlankDays(b) == [a[0]] + (NonBlankDays(a[1..]) + NonBlankDays(b));
      }
    } else {
      assert a + b == b;
    }
  }

  /** Days made only of white space leave nothing. */
  lemma {:induction false} NoNonBlankDays(ds: seq<DayFeedback>)
    requires forall d :: d in ds ==> Text.AllSpace(d.feedback)
    ensures NonBlankDays(ds) == []
    decreases |ds|
  {
    if |ds| > 0 {
      assert ds[0] in ds;
      assert forall d :: d in ds[1..] ==> d in ds;
      NoNonBlankDays(ds[1..]);
    }
  }

  /** A day made only of white space is left out of the prompt. */
  lemma BlankDayOmitted(ds: seq<DayFeedback>, d: DayFeedback)
    requires Text.AllSpace(d.feedback)
    ensures NonBlankDays(ds + [d]) == NonBlankDays(ds)
  {
    NonBlankDaysAppend(ds, [d]);
    assert [d][1..] == [];
  }

  function DayClause(d: DayFeedback): string {
    "For Day " + Text.IntToString(d.day) + ", I'd like to change it to: \"" + d.feedback + "\""
  }

  function DayClauses(ds: seq<DayFeedback>): (r: seq<string>)
    ensures |r| == |ds| && forall i :: 0 <= i < |ds| ==> r[i] == DayClause(ds[i])
  {
    seq(|ds|, i requires 0 <= i < |ds| => DayClause(ds[i]))
  }

  /** The request built from the customisation modal's output. */
  function FeedbackPrompt(f: CustomizationFeedback): string {
    "My overall feedback is: \"" + f.generalFeedback + "\". For specific days: "
    + Text.Join(DayClauses(NonBlankDays(f.dailyFeedback)), ". ") + "."
  }

  /**
    The day part of the prompt names exactly the non-blank days, one clause
    each, in the order of the form: splitting the form anywhere splits the
    clauses at the same place.
  */
  lemma FeedbackPromptShape(f: CustomizationFeedback)
    ensures var kept := NonBlankDays(f.dailyFeedback);
      && |DayClauses(kept)| == |kept| <= |f.dailyFeedback|
      && (forall i :: 0 <= i < |kept| ==> NonBlank(kept[i]) && DayClauses(kept)[i] == DayClause(kept[i]))
      && (forall d :: d in kept <==> d in f.dailyFeedback && NonBlank(d))
      && (forall a, b :: f.dailyFeedback == a + b ==>
            DayClauses(kept) == DayClauses(NonBlankDays(a)) + DayClauses(NonBlankDays(b)))
  {
    NonBlankDaysKeeps(f.dailyFeedback);
    forall a, b | f.dailyFeedback == a + b
      ensures DayClauses(NonBlankDays(f.dailyFeedback)) == DayClauses(NonBlankDays(a)) + DayClauses(NonBlankDays(b))
    {
      NonBlankDaysAppend(a, b);
    }
  }

  /** With no non-blank day the day part is empty. */
  lemma FeedbackPromptAllBlank(f: CustomizationFeedback)
    requires forall d :: d in f.dailyFeedback ==> Text.AllSpace(d.feedback)
    ensures FeedbackPrompt(f) == "My overall feedback is: \"" + f.generalFeedback + "\". For specific days: ."
  {
    NoNonBlankDays(f.dailyFeedback);
    var kept := NonBlankDays(f.dailyFeedback);
    assert Text.Join(DayClauses(kept), ". ") == "";
  }

  /** The id a trip is saved under: the first day's title, or "Trip <now>" when there is none or it is empty. */
  function TripId(itinerary: seq<ItineraryDay>, now: int): string {
    if |itinerary| > 0 && itinerary[0].title != "" then itinerary[0].title else "Trip " + Text.IntToString(now)
  }

  predicate IsSaved(trips: seq<SavedTrip>, id: string) {
    exists k :: 0 <= k < |trips| && trips[k].id == id
  }

  predicate UniqueIds(trips: seq<SavedTrip>) {
    forall i, j :: 0 <= i < j < |trips| ==> trips[i].id != trips[j].id
  }

  // -----------------------------------------------------------------------
  // Handlers as functions on the page state
  // -----------------------------------------------------------------------

  function Append(p: Page, m: Message): Page {
    p.(messages := p.messages + [m])
  }

  function Welcome(now: int): Message {
    TextMessage(now, Ai, WelcomeText)
  }

  /** startNewSession. */
  function NewSession(p: Page, uuid: string, now: int): Page {
    p.(sessionId := uuid, messages := [Welcome(now)], stage := AwaitingInitialPrompt, details := NoDetails, finalized := false)
  }

  function Initial(uuid: string, now: int): Page {
    NewSession(Page([], [], false, false, "", AwaitingInitialPrompt, NoDetails, false, []), uuid, now)
  }

  /** The effect run whenever the stage changes to `p.stage` (lines 55-72). */
  function StageEffect(p: Page, now: int): Page {
    match p.stage
    case AwaitingTravelers => Append(p, TextMessage(now, Ai, TravelersQuestion))
    case AwaitingDate => Append(p, TextMessage(now, Ai, DateQuestion))
    case AwaitingFlights => Append(p, TextMessage(now, Ai, FlightsQuestion))
    case PlanConfirmed =>
      (match LastItinerary(p.messages)
       case Some(it) => Append(p, Message(now, Ai, SummaryText, None, None, Some(it), None, false)).(finalized := true)
       case None => p)
    case _ => p
  }

  function SetStage(p: Page, s: Stage, now: int): Page {
    if s == p.stage then p else StageEffect(p.(stage := s), now)
  }

  /** The synchronous part of generateItinerary: loading on, request sent. */
  function Generate(p: Page, d: Details, previous: Option<seq<ItineraryDay>>, feedback: string,
                    render: seq<ItineraryDay> -> string): Page {
    p.(isLoading := true, requests := p.requests + [FullPrompt(d, previous, feedback, render)])
  }

  /** handleNewPrompt. */
  function Prompt(p: Page, prompt: string, now: int, uuid: string, render: seq<ItineraryDay> -> string): Page {
    var p1 := Append(p, TextMessage(now, User, prompt));
    match p.stage
    case AwaitingInitialPrompt =>
      SetStage(p1.(details := NoDetails.(mainQuery := Some(prompt))), AwaitingTravelers, now)
    case AwaitingTravelers =>
      SetStage(p1.(details := p.details.(travelers := Some(TravelersOf(prompt)))), AwaitingDate, now)
    case AwaitingDate =>
      SetStage(p1.(details := p.details.(date := Some(prompt))), AwaitingFlights, now)
    case AwaitingFlights =>
      var d := p.details.(flights := Some(FlightsOf(prompt)));
      Generate(SetStage(p1.(details := d), GeneratingItinerary, now), d, None, "", render)
    case AwaitingImprovements => Improve(p1, LastItinerary(p.messages), prompt, now, uuid, render)
    case GeneratingItinerary => p1
    case PlanConfirmed => p1
  }

  /** The improvement stage of handleNewPrompt, after the user message `p1` is shown; `last` is the itinerary found before. */
  function Improve(p1: Page, last: Option<seq<ItineraryDay>>, prompt: string, now: int, uuid: string,
                   render: seq<ItineraryDay> -> string): Page {
    if IsConfirmation(prompt) then SetStage(p1, PlanConfirmed, now)
    else
      match last
      case Some(it) => Generate(SetStage(p1, GeneratingItinerary, now), p1.details, Some(it), prompt, render)
      case None => NewSession(Append(p1, TextMessage(now + 1, Ai, LostContextText)), uuid, now)
  }

  function RemoveAt<T>(s: seq<T>, k: nat): seq<T>
    requires k < |s|
  {
    s[..k] + s[k + 1..]
  }

  /** The k-th pending request is answered. */
  function Resolve(p: Page, k: nat, outcome: Outcome, now: int): Page
    requires k < |p.requests|
  {
    var p1 := p.(requests := RemoveAt(p.requests, k));
    var p2 :=
      match outcome
      case Responded(Some(draft)) =>
        var withDraft := Append(Append(p1, Message(now + 2, Ai, "", Some(draft), None, None, None, false)),
                                TextMessage(now + 3, Ai, FollowUpText));
        SetStage(withDraft, AwaitingImprovements, now)
      case Responded(None) => p1
      case Failed => SetStage(Append(p1, TextMessage(now + 1, Ai, ErrorText)), AwaitingInitialPrompt, now);
    p2.(isLoading := false)
  }

  /** handleSaveTrip. */
  function SaveTrip(p: Page, itinerary: seq<ItineraryDay>, now: int): Page {
    var id := TripId(itinerary, now);
    if IsSaved(p.savedTrips, id) then p.(showSavedPopup := true)
    else p.(savedTrips := p.savedTrips + [SavedTrip(id, id, SavedTripDates, itinerary)])
  }

  /** handleSaveCustomization. */
  function SaveCustomization(p: Page, f: CustomizationFeedback, now: int, render: seq<ItineraryDay> -> string): Page {
    var p1 := Append(p, Message(now, User, ChangesText, None, Some(f), None, None, false));
    match LastItinerary(p.messages)
    case Some(it) => Generate(SetStage(p1, GeneratingItinerary, now), p.details, Some(it), FeedbackPrompt(f), render)
    case None => p1
  }

  // -----------------------------------------------------------------------
  // Properties
  // -----------------------------------------------------------------------

  /** What every page state satisfies: there is at least one message and saved ids are distinct. */
  predicate PageValid(p: Page) {
    |p.messages| > 0 && UniqueIds(p.savedTrips)
  }

  lemma InitialValid(uuid: string, now: int)
    ensures PageValid(Initial(uuid, now))
    ensures Initial(uuid, now).messages == [Welcome(now)] && Initial(uuid, now).stage == AwaitingInitialPrompt
  {
  }

  /** The stage effect only ever appends messages. */
  lemma SetStageAppends(p: Page, s: Stage, now: int)
    ensures var r := SetStage(p, s, now);
      p.messages <= r.messages && r.savedTrips == p.savedTrips && r.requests == p.requests
      && r.isLoading == p.isLoading && r.details == p.details && r.stage == s
  {
  }

  /**
    Every prompt appends exactly one user message with the prompt text
    ahead of anything else; the only exception is the lost-context restart,
    whose new session starts over from the welcome message alone.
  */
  lemma {:induction false} PromptAppendsUserMessage(p: Page, prompt: string, now: int, uuid: string,
                                                    render: seq<ItineraryDay> -> string)
    ensures var r := Prompt(p, prompt, now, uuid, render);
      var restarted := p.stage == AwaitingImprovements && !IsConfirmation(prompt) && LastItinerary(p.messages).None?;
      && (!restarted ==> |r.messages| > |p.messages| && r.messages[..|p.messages| + 1] == p.messages + [TextMessage(now, User, prompt)])
      && (restarted ==> r.messages == [Welcome(now)] && r.stage == AwaitingInitialPrompt && r.details == NoDetails)
  {
    var p1 := Append(p, TextMessage(now, User, prompt));
    var r := Prompt(p, prompt, now, uuid, render);
    var restarted := p.stage == AwaitingImprovements && !IsConfirmation(prompt) && LastItinerary(p.messages).None?;
    if !restarted {
      assert p1.messages <= r.messages by {
        match p.stage
        case AwaitingInitialPrompt => SetStageAppends(p1.(details := NoDetails.(mainQuery := Some(prompt))), AwaitingTravelers, now);
        case AwaitingTravelers => SetStageAppends(p1.(details := p.details.(travelers := Some(TravelersOf(prompt)))), AwaitingDate, now);
        case AwaitingDate => SetStageAppends(p1.(details := p.details.(date := Some(prompt))), AwaitingFlights, now);
        case AwaitingFlights =>
          SetStageAppends(p1.(details := p.details.(flights := Some(FlightsOf(prompt)))), GeneratingItinerary, now);
        case AwaitingImprovements =>
          SetStageAppends(p1, PlanConfirmed, now);
          SetStageAppends(p1, GeneratingItinerary, now);
        case GeneratingItinerary =>
        case PlanConfirmed =>
      }
      assert r.messages[..|p.messages| + 1] == p1.messages[..|p.messages| + 1];
    }
  }

  /** The four question stages advance one step and record the answer; the travellers answer is also asked about next. */
  lemma QuestionStagesAdvance(p: Page, prompt: string, now: int, uuid: string, render: seq<ItineraryDay> -> string)
    ensures var r := Prompt(p, prompt, now, uuid, render);
      && (p.stage == AwaitingInitialPrompt ==>
            r.stage == AwaitingTravelers && r.details == NoDetails.(mainQuery := Some(prompt))
            && r.messages == p.messages + [TextMessage(now, User, prompt), TextMessage(now, Ai, TravelersQuestion)])
      && (p.stage == AwaitingTravelers ==>
            r.stage == AwaitingDate && r.details == p.details.(travelers := Some(TravelersOf(prompt)))
            && r.messages == p.messages + [TextMessage(now, User, prompt), TextMessage(now, Ai, DateQuestion)])
      && (p.stage == AwaitingDate ==>
            r.stage == AwaitingFlights && r.details == p.details.(date := Some(prompt))
            && r.messages == p.messages + [TextMessage(now, User, prompt), TextMessage(now, Ai, FlightsQuestion)])
      && (p.stage == AwaitingFlights ==>
            r.stage == GeneratingItinerary && r.details == p.details.(flights := Some(FlightsOf(prompt)))
            && r.isLoading && r.requests == p.requests + [FreshPrompt(r.details)]
            && r.messages == p.messages + [TextMessage(now, User, prompt)])
  {
  }

  /** While generating or after confirmation a prompt only adds the user message. */
  lemma PromptIgnoredWhileBusy(p: Page, prompt: string, now: int, uuid: string, render: seq<ItineraryDay> -> string)
    requires p.stage == GeneratingItinerary || p.stage == PlanConfirmed
    ensures Prompt(p, prompt, now, uuid, render) == p.(messages := p.messages + [TextMessage(now, User, prompt)])
  {
  }

  /**
    In the improvement stage a confirming prompt confirms the plan; the
    summary is shown and the plan finalised exactly when some earlier
    message carries an itinerary.
  */
  lemma ConfirmationStage(p: Page, prompt: string, now: int, uuid: string, render: seq<ItineraryDay> -> string)
    requires p.stage == AwaitingImprovements && IsConfirmation(prompt)
    ensures var r := Prompt(p, prompt, now, uuid, render);
      && r.stage == PlanConfirmed
      && (LastItinerary(p.messages).Some? ==>
            r.finalized && r.messages == p.messages + [TextMessage(now, User, prompt),
              Message(now, Ai, SummaryText, None, None, LastItinerary(p.messages), None, false)])
      && (LastItinerary(p.messages).None? ==>
            r.finalized == p.finalized && r.messages == p.messages + [TextMessage(now, User, prompt)])
  {
    LastItineraryAfterPlain(p.messages, TextMessage(now, User, prompt));
  }

  /** In the improvement stage any other prompt regenerates from the last itinerary with the prompt as feedback. */
  lemma RegenerationStage(p: Page, prompt: string, now: int, uuid: string, render: seq<ItineraryDay> -> string)
    requires p.stage == AwaitingImprovements && !IsConfirmation(prompt) && LastItinerary(p.messages).Some?
    ensures var r := Prompt(p, prompt, now, uuid, render);
      && r.stage == GeneratingItinerary && r.isLoading
      && r.requests == p.requests + [FullPrompt(p.details, LastItinerary(p.messages), prompt, render)]
  {
    LastItineraryAfterPlain(p.messages, TextMessage(now, User, prompt));
  }

  /**
    In the improvement stage a prompt that does not confirm, with no
    itinerary to improve, starts a new session: the prompt and the notice
    about the lost context are replaced by the welcome message.
  */
  lemma LostContextRestarts(p: Page, prompt: string, now: int, uuid: string, render: seq<ItineraryDay> -> string)
    requires p.stage == AwaitingImprovements && !IsConfirmation(prompt) && LastItinerary(p.messages).None?
    ensures Prompt(p, prompt, now, uuid, render) == NewSession(p, uuid, now)
    ensures var r := Prompt(p, prompt, now, uuid, render);
      && r.sessionId == uuid && r.messages == [Welcome(now)] && r.stage == AwaitingInitialPrompt
      && r.details == NoDetails && !r.finalized && r.requests == p.requests && r.savedTrips == p.savedTrips
  {
  }

  /**
    A draft appends the itinerary message then the follow-up question and
    awaits improvements; a failure appends one error message and returns to
    the first question; a response without a draft changes only the request
    list. Loading is off afterwards in every case.
  */
  lemma ResolveOutcomes(p: Page, k: nat, outcome: Outcome, now: int)
    requires k < |p.requests|
    ensures var r := Resolve(p, k, outcome, now);
      && !r.isLoading
      && r.requests == RemoveAt(p.requests, k)
      && r.savedTrips == p.savedTrips
      && (outcome.Responded? && outcome.draft.Some? ==>
            r.stage == AwaitingImprovements
            && r.messages == p.messages + [Message(now + 2, Ai, "", outcome.draft, None, None, None, false),
                                           TextMessage(now + 3, Ai, FollowUpText)])
      && (outcome.Failed? ==>
            r.stage == AwaitingInitialPrompt && r.messages == p.messages + [TextMessage(now + 1, Ai, ErrorText)])
      && (outcome.Responded? && outcome.draft.None? ==>
            r.stage == p.stage && r.messages == p.messages)
  {
  }

  /** Saving a trip: an id already saved only shows the popup; a new id is appended once. Ids stay distinct. */
  lemma SaveTripKeepsIdsUnique(p: Page, itinerary: seq<ItineraryDay>, now: int)
    requires UniqueIds(p.savedTrips)
    ensures var r := SaveTrip(p, itinerary, now);
      && UniqueIds(r.savedTrips)
      && IsSaved(r.savedTrips, TripId(itinerary, now))
      && (IsSaved(p.savedTrips, TripId(itinerary, now)) ==> r.savedTrips == p.savedTrips && r.showSavedPopup)
      && (!IsSaved(p.savedTrips, TripId(itinerary, now)) ==>
            r.savedTrips == p.savedTrips + [SavedTrip(TripId(itinerary, now), TripId(itinerary, now), SavedTripDates, itinerary)])
  {
    var id := TripId(itinerary, now);
    var r := SaveTrip(p, itinerary, now);
    if !IsSaved(p.savedTrips, id) {
      assert r.savedTrips[|p.savedTrips|].id == id;
    }
  }

  /** Saving the same itinerary twice at the same time saves it once. */
  lemma SaveTripTwice(p: Page, itinerary: seq<ItineraryDay>, now: int)
    ensures SaveTrip(SaveTrip(p, itinerary, now), itinerary, now).savedTrips == SaveTrip(p, itinerary, now).savedTrips
  {
    var r := SaveTrip(p, itinerary, now);
    var id := TripId(itinerary, now);
    if !IsSaved(p.savedTrips, id) {
      assert r.savedTrips[|p.savedTrips|].id == id;
    }
  }

  /** A customisation always adds the user's change request; it regenerates only when an itinerary is on the page. */
  lemma SaveCustomizationEffect(p: Page, f: CustomizationFeedback, now: int, render: seq<ItineraryDay> -> string)
    ensures var r := SaveCustomization(p, f, now, render);
      && r.messages == p.messages + [Message(now, User, ChangesText, None, Some(f), None, None, false)]
      && (LastItinerary(p.messages).Some? ==>
            r.stage == GeneratingItinerary && r.isLoading
            && r.requests == p.requests + [ImprovePrompt(p.details, render(LastItinerary(p.messages).value), FeedbackPrompt(f))])
      && (LastItinerary(p.messages).None? ==> r.stage == p.stage && r.requests == p.requests)
  {
    var fb := FeedbackPrompt(f);
    assert |fb| > 0;
    var p1 := Append(p, Message(now, User, ChangesText, None, Some(f), None, None, false));
    SetStageAppends(p1, GeneratingItinerary, now);
  }

  lemma {:induction false} PromptValid(p: Page, prompt: string, now: int, uuid: string, render: seq<ItineraryDay> -> string)
    requires PageValid(p)
    ensures PageValid(Prompt(p, prompt, now, uuid, render))
  {
    PromptAppendsUserMessage(p, prompt, now, uuid, render);
  }

  // -----------------------------------------------------------------------
  // The page component
  // -----------------------------------------------------------------------

  class Concierge {
    /** JSON.stringify(itinerary, null, 2). */
    const render: seq<ItineraryDay> -> string
    var messages: seq<Message>
    var savedTrips: seq<SavedTrip>
    var showSavedPopup: bool
    var isLoading: bool
    var sessionId: string
    var stage: Stage
    var details: Details
    var finalized: bool
    var requests: seq<string>

    function Snapshot(): Page
      reads this
    {
      Page(messages, savedTrips, showSavedPopup, isLoading, sessionId, stage, details, finalized, requests)
    }

    predicate Valid()
      reads this
    {
      PageValid(Snapshot())
    }

    /** Mounting runs startNewSession. */
    constructor (render: seq<ItineraryDay> -> string, uuid: string, now: int)
      ensures Valid() && Snapshot() == Initial(uuid, now) && this.render == render
    {
      this.render := render;
      messages, savedTrips, showSavedPopup, isLoading := [], [], false, false;
      sessionId, stage, details, finalized, requests := "", AwaitingInitialPrompt, NoDetails, false, [];
      new;
      StartNewSession(uuid, now);
    }

    method StartNewSession(uuid: string, now: int)
      modifies this
      ensures Snapshot() == NewSession(old(Snapshot()), uuid, now)
    {
      sessionId := uuid;
      messages := [Welcome(now)];
      stage := AwaitingInitialPrompt;
      details := NoDetails;
      finalized := false;
    }

    method AddMessage(m: Message)
      modifies this
      ensures Snapshot() == Append(old(Snapshot()), m)
    {
      messages := messages + [m];
    }

    /** setConversationStage followed by the stage effect when the stage changed. */
    method ChangeStage(s: Stage, now: int)
      modifies this
      ensures Snapshot() == SetStage(old(Snapshot()), s, now)
    {
      if s == stage {
        return;
      }
      stage := s;
      match s {
        case AwaitingTravelers => AddMessage(TextMessage(now, Ai, TravelersQuestion));
        case AwaitingDate => AddMessage(TextMessage(now, Ai, DateQuestion));
        case AwaitingFlights => AddMessage(TextMessage(now, Ai, FlightsQuestion));
        case PlanConfirmed =>
          var last := LastItinerary(messages);
          if last.Some? {
            AddMessage(Message(now, Ai, SummaryText, None, None, last, None, false));
            finalized := true;
          }
        case _ =>
      }
    }

    method GenerateItinerary(d: Details, previous: Option<seq<ItineraryDay>>, feedback: string)
      modifies this
      ensures Snapshot() == Generate(old(Snapshot()), d, previous, feedback, render)
    {
      isLoading := true;
      requests := requests + [FullPrompt(d, previous, feedback, render)];
    }

    method HandleNewPrompt(prompt: string, now: int, uuid: string)
      requires Valid()
      modifies this
      ensures Valid() && Snapshot() == Prompt(old(Snapshot()), prompt, now, uuid, render)
    {
      ghost var p := Snapshot();
      var last := LastItinerary(messages);
      AddMessage(TextMessage(now, User, prompt));
      match stage {
        case AwaitingInitialPrompt =>
          details := NoDetails.(mainQuery := Some(prompt));
          ChangeStage(AwaitingTravelers, now);
        case AwaitingTravelers =>
          details := details.(travelers := Some(TravelersOf(prompt)));
          ChangeStage(AwaitingDate, now);
        case AwaitingDate =>
          details := details.(date := Some(prompt));
          ChangeStage(AwaitingFlights, now);
        case AwaitingFlights =>
          var finalDetails := details.(flights := Some(FlightsOf(prompt)));
          details := finalDetails;
          ChangeStage(GeneratingItinerary, now);
          GenerateItinerary(finalDetails, None, "");
        case AwaitingImprovements =>
          HandleImprovement(last, prompt, now, uuid);
        case GeneratingItinerary =>
        case PlanConfirmed =>
      }
      PromptValid(p, prompt, now, uuid, render);
    }

    method HandleImprovement(last: Option<seq<ItineraryDay>>, prompt: string, now: int, uuid: string)
      modifies this
      ensures Snapshot() == Improve(old(Snapshot()), last, prompt, now, uuid, render)
    {
      if IsConfirmation(prompt) {
        ChangeStage(PlanConfirmed, now);
      } else if last.Some? {
        var d := details;
        ChangeStage(GeneratingItinerary, now);
        GenerateItinerary(d, last, prompt);
      } else {
        AddMessage(TextMessage(now + 1, Ai, LostContextText));
        StartNewSession(uuid, now);
      }
    }

    /** The k-th pending generateItinerary request settles with `outcome`. */
    method OnGenerationResolved(k: nat, outcome: Outcome, now: int)
      requires Valid() && k < |requests|
      modifies this
      ensures Valid() && Snapshot() == Resolve(old(Snapshot()), k, outcome, now)
    {
      requests := RemoveAt(requests, k);
      match outcome {
        case Responded(draft) =>
          if draft.Some? {
            AddMessage(Message(now + 2, Ai, "", draft, None, None, None, false));
            AddMessage(TextMessage(now + 3, Ai, FollowUpText));
            ChangeStage(AwaitingImprovements, now);
          }
        case Failed =>
          AddMessage(TextMessage(now + 1, Ai, ErrorText));
          ChangeStage(AwaitingInitialPrompt, now);
      }
      isLoading := false;
    }

    method HandleSaveTrip(itinerary: seq<ItineraryDay>, now: int)
      requires Valid()
      modifies this
      ensures Valid() && Snapshot() == SaveTrip(old(Snapshot()), itinerary, now)
    {
      ghost var p := Snapshot();
      var id := TripId(itinerary, now);
      var k := 0;
      while k < |savedTrips|
        invariant 0 <= k <= |savedTrips|
        invariant forall j :: 0 <= j < k ==> savedTrips[j].id != id
      {
        if savedTrips[k].id == id {
          showSavedPopup := true;
          return;
        }
        k := k + 1;
      }
      savedTrips := savedTrips + [SavedTrip(id, id, SavedTripDates, itinerary)];
      SaveTripKeepsIdsUnique(p, itinerary, now);
    }

    /** The popup timer (3 s) hides the "already saved" notice. */
    method OnSavedPopupTimeout()
      requires Valid()
      modifies this
      ensures Valid() && Snapshot() == old(Snapshot()).(showSavedPopup := false)
    {
      showSavedPopup := false;
    }

    method HandleSaveCustomization(f: CustomizationFeedback, now: int)
      requires Valid()
      modifies this
      ensures Valid() && Snapshot() == SaveCustomization(old(Snapshot()), f, now, render)
    {
      var feedbackPrompt := FeedbackPrompt(f);
      var last := LastItinerary(messages);
      AddMessage(Message(now, User, ChangesText, None, Some(f), None, None, false));
      if last.Some? {
        var d := details;
        ChangeStage(GeneratingItinerary, now);
        GenerateItinerary(d, last, feedbackPrompt);
      }
    }
  }
}
