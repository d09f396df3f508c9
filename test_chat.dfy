/**
  The map-tool test chat (frontend/components/NewTestChat.tsx): a typed
  command "tool arg arg …" is parsed into a tool name and a tool input, sent
  to the tool endpoint, and the answer or the error is appended to the chat.

  Coordinates stay as the text the user typed (Number() parsing is not
  modelled). JSON.parse is a predicate parameter saying which texts parse;
  a parsed input is kept as its text.
*/
module TestChat {
  import opened Wrappers
  import Text

  /** The two halves of an "lon,lat" argument; a missing latitude is `None` (undefined). */
  datatype LonLat = LonLat(lon: string, lat: Option<string>)

  datatype ToolInput =
    | Waypoints(points: seq<LonLat>)
    | Isochrone(location: LonLat, contourMinutes: seq<Option<int>>)
    | ReverseGeocode(location: LonLat)
    | SearchText(searchText: string)
    | CategorySearch(query: Option<string>, near: Option<LonLat>)
    | EmptyInput
    | ParsedJson(text: string)

  datatype ToolCall = ToolCall(toolName: string, toolInput: ToolInput)

  /** The TypeError raised by `args[0].split` when the argument is missing. */
  const MissingArgumentError := "Cannot read properties of undefined (reading 'split')"

  /** `arg.split(',')` destructured as [lon, lat]. */
  function LonLatOf(arg: string): (r: LonLat)
    ensures var parts := Text.Split(arg, ',');
      r.lon == parts[0] && (r.lat.Some? <==> |parts| > 1) && (r.lat.Some? ==> r.lat.value == parts[1])
  {
    var parts := Text.Split(arg, ',');
    LonLat(parts[0], if |parts| > 1 then Some(parts[1]) else None)
  }

  /** "lon,lat" written without further commas is read back as that pair. */
  lemma LonLatOfPair(lon: string, lat: string)
    requires ',' !in lon && ',' !in lat
    ensures LonLatOf(lon + "," + lat) == LonLat(lon, Some(lat))
  {
    Text.SplitPair(lon, ',', lat);
  }

  function WaypointsOf(args: seq<string>): (r: seq<LonLat>)
    ensures |r| == |args| && forall i :: 0 <= i < |args| ==> r[i] == LonLatOf(args[i])
  {
    seq(|args|, i requires 0 <= i < |args| => LonLatOf(args[i]))
  }

  /** The tools `parseCommand` knows by name; any other name is `OtherTool`. */
  datatype Tool =
    | DirectionsTool | IsochroneTool | ReverseGeocodeTool | SearchAndGeocodeTool
    | CategorySearchTool | VersionTool | CategoryListTool | OtherTool

  const DirectionsName := "directions_tool"
  const IsochroneName := "isochrone_tool"
  const ReverseGeocodeName := "reverse_geocode_tool"
  const SearchAndGeocodeName := "search_and_geocode_tool"
  const CategorySearchName := "category_search_tool"
  const VersionName := "version_tool"
  const CategoryListName := "category_list_tool"

  /** The name each known tool is typed as. */
  function ToolName(t: Tool): string
    requires t != OtherTool
  {
    match t
    case DirectionsTool => DirectionsName
    case IsochroneTool => IsochroneName
    case ReverseGeocodeTool => ReverseGeocodeName
    case SearchAndGeocodeTool => SearchAndGeocodeName
    case CategorySearchTool => CategorySearchName
    case VersionTool => VersionName
    case CategoryListTool => CategoryListName
  }

  /** The `switch (toolName)`: a known name selects its tool, anything else the default branch. */
  function ToolOf(name: string): (t: Tool)
    ensures t != OtherTool ==> ToolName(t) == name
  {
    if name == DirectionsName then DirectionsTool
    else if name == IsochroneName then IsochroneTool
    else if name == ReverseGeocodeName then ReverseGeocodeTool
    else if name == SearchAndGeocodeName then SearchAndGeocodeTool
    else if name == CategorySearchName then CategorySearchTool
    else if name == VersionName then VersionTool
    else if name == CategoryListName then CategoryListTool
    else OtherTool
  }

  /** Each known name selects its own tool: no two tools share a name. */
  lemma ToolOfName(t: Tool)
    requires t != OtherTool
    ensures ToolOf(ToolName(t)) == t
  {
    // The names differ at their first character, except the two category tools.
    assert DirectionsName[0] == 'd' && IsochroneName[0] == 'i' && ReverseGeocodeName[0] == 'r';
    assert SearchAndGeocodeName[0] == 's' && VersionName[0] == 'v';
    assert CategorySearchName[0] == 'c' && CategoryListName[0] == 'c';
    assert CategorySearchName[9] == 's' && CategoryListName[9] == 'l';
  }

  /** A name selects a known tool exactly when it is that tool's name. */
  lemma ToolOfIs(name: string, t: Tool)
    requires t != OtherTool
    ensures ToolOf(name) == t <==> name == ToolName(t)
  {
    if name == ToolName(t) {
      ToolOfName(t);
    }
  }

  /** An unknown name falls to the default branch. */
  lemma ToolOfUnknown(name: string)
    requires forall t :: t != OtherTool ==> ToolName(t) != name
    ensures ToolOf(name) == OtherTool
  {
  }

  /**
    The tool input built from the arguments. A missing first argument where
    the tool splits it is the TypeError; every other case succeeds.
  */
  function InputFor(tool: Tool, args: seq<string>, jsonParses: string -> bool): (r: Result<ToolInput, string>)
    ensures r.Err? <==> (tool == IsochroneTool || tool == ReverseGeocodeTool) && |args| == 0
    ensures r.Err? ==> r.error == MissingArgumentError
  {
    match tool
    case DirectionsTool => Ok(Waypoints(WaypointsOf(args)))
    case IsochroneTool =>
      if |args| == 0 then Err(MissingArgumentError)
      else
        var minutes := if |args| > 1 then Text.ParseInt(args[1]) else None;
        Ok(Isochrone(LonLatOf(args[0]), [minutes]))
    case ReverseGeocodeTool =>
      if |args| == 0 then Err(MissingArgumentError) else Ok(ReverseGeocode(LonLatOf(args[0])))
    case SearchAndGeocodeTool => Ok(SearchText(Text.Join(args, " ")))
    case CategorySearchTool =>
      var query := if |args| > 0 then Some(args[0]) else None;
      var near := if |args| > 1 && args[1] != "" then Some(LonLatOf(args[1])) else None;
      Ok(CategorySearch(query, near))
    case VersionTool => Ok(EmptyInput)
    case CategoryListTool => Ok(EmptyInput)
    case OtherTool =>
      var text := Text.Join(args, " ");
      Ok(if jsonParses(text) then ParsedJson(text) else EmptyInput)
  }

  /**
    parseCommand: the first white-space-separated token of the trimmed
    command names the tool, the remaining tokens are its arguments.
  */
  function ParseCommand(command: string, jsonParses: string -> bool): Result<ToolCall, string> {
    Interpret(Text.WhitespaceSplit(command), jsonParses)
  }

  /** The tokens of a command: the first names the tool, the rest are its arguments. */
  function Interpret(tokens: seq<string>, jsonParses: string -> bool): Result<ToolCall, string>
    requires |tokens| > 0
  {
    match InputFor(ToolOf(tokens[0]), tokens[1..], jsonParses)
    case Ok(input) => Ok(ToolCall(tokens[0], input))
    case Err(e) => Err(e)
  }

  /** Words a user types, space-separated: non-empty and without white space. */
  predicate Words(ws: seq<string>) {
    forall i :: 0 <= i < |ws| ==> |ws[i]| > 0 && Text.NoSpace(ws[i])
  }

  /** The command "name arg1 … argk" splits into exactly that name and those arguments. */
  lemma TokensOfCommand(name: string, args: seq<string>)
    requires Words([name] + args)
    ensures Text.WhitespaceSplit(Text.Join([name] + args, " ")) == [name] + args
  {
    Text.WhitespaceSplitOfJoin([name] + args);
  }

  /**
    A command whose tokens are a name and some arguments is the call of the
    tool that name selects, on exactly those arguments, and fails exactly
    when that input fails.
  */
  lemma ParseCommandOf(command: string, name: string, args: seq<string>, jsonParses: string -> bool)
    requires Text.WhitespaceSplit(command) == [name] + args
    ensures ParseCommand(command, jsonParses) == Interpret([name] + args, jsonParses)
    ensures var r := ParseCommand(command, jsonParses);
      var input := InputFor(ToolOf(name), args, jsonParses);
      && (r.Ok? <==> input.Ok?)
      && (r.Ok? ==> r.value == ToolCall(name, input.value))
      && (r.Err? ==> r.error == input.error)
  {
    assert ([name] + args)[1..] == args;
  }

  /** The typed command "name arg1 … argk" is interpreted as exactly that name and those arguments. */
  lemma ParseTypedCommand(name: string, args: seq<string>, jsonParses: string -> bool)
    requires Words([name] + args)
    ensures ParseCommand(Text.Join([name] + args, " "), jsonParses) == Interpret([name] + args, jsonParses)
  {
    TokensOfCommand(name, args);
  }

  /**
    The name "directions_tool" selects the directions branch, which makes
    one waypoint per argument, in argument order.
  */
  lemma DirectionsWaypoints(args: seq<string>, jsonParses: string -> bool)
    ensures Interpret([DirectionsName] + args, jsonParses) == Ok(ToolCall(DirectionsName, Waypoints(WaypointsOf(args))))
  {
    assert ([DirectionsName] + args)[1..] == args;
    ToolOfName(DirectionsTool);
  }

  /**
    The name "isochrone_tool" selects the isochrone branch: the location from
    the first argument, the minutes list holding parseInt of the second.
  */
  lemma IsochroneInput(location: string, minutes: string, jsonParses: string -> bool)
    ensures Interpret([IsochroneName, location, minutes], jsonParses)
            == Ok(ToolCall(IsochroneName, Isochrone(LonLatOf(location), [Text.ParseInt(minutes)])))
  {
    assert [IsochroneName, location, minutes][1..] == [location, minutes];
    ToolOfName(IsochroneTool);
  }

  /** Isochrone and reverse geocoding without an argument fail with the TypeError; nothing else fails. */
  lemma MissingArgumentFails(name: string, jsonParses: string -> bool)
    requires |name| > 0 && Text.NoSpace(name)
    ensures var r := ParseCommand(name, jsonParses);
      r.Err? <==> name == IsochroneName || name == ReverseGeocodeName
    ensures ParseCommand(name, jsonParses).Err? ==> ParseCommand(name, jsonParses).error == MissingArgumentError
  {
    assert Text.Join([name], " ") == name;
    assert [name] + [] == [name];
    TokensOfCommand(name, []);
    ParseCommandOf(name, name, [], jsonParses);
    ToolOfIs(name, IsochroneTool);
    ToolOfIs(name, ReverseGeocodeTool);
  }

  /**
    The name "search_and_geocode_tool" selects the search branch: the search
    text is the arguments re-joined with single spaces.
  */
  lemma SearchTextRejoined(args: seq<string>, jsonParses: string -> bool)
    ensures Interpret([SearchAndGeocodeName] + args, jsonParses)
            == Ok(ToolCall(SearchAndGeocodeName, SearchText(Text.Join(args, " "))))
  {
    assert ([SearchAndGeocodeName] + args)[1..] == args;
    ToolOfName(SearchAndGeocodeTool);
  }

  /** Category search: the first argument is the query; the location is added only with a second argument. */
  lemma CategorySearchInput(args: seq<string>, jsonParses: string -> bool)
    requires Words(args) && |args| > 0
    ensures var r := Interpret([CategorySearchName] + args, jsonParses);
      && r.Ok? && r.value.toolInput.CategorySearch? && r.value.toolInput.query == Some(args[0])
      && (r.value.toolInput.near.Some? <==> |args| > 1)
      && (|args| > 1 ==> r.value.toolInput.near == Some(LonLatOf(args[1])))
  {
    assert ([CategorySearchName] + args)[1..] == args;
    ToolOfName(CategorySearchTool);
    if |args| > 1 {
      assert |args[1]| > 0;
    }
  }

  /**
    A name no tool has selects the default branch: the JSON parsed from the
    re-joined arguments, or an empty input when that fails.
  */
  lemma UnknownToolInput(name: string, args: seq<string>, jsonParses: string -> bool)
    requires forall t :: t != OtherTool ==> ToolName(t) != name
    ensures var r := Interpret([name] + args, jsonParses);
      && r.Ok? && r.value.toolName == name
      && r.value.toolInput == (if jsonParses(Text.Join(args, " ")) then ParsedJson(Text.Join(args, " ")) else EmptyInput)
  {
    assert ([name] + args)[1..] == args;
    ToolOfUnknown(name);
  }

  // -----------------------------------------------------------------------
  // The chat
  // -----------------------------------------------------------------------

  datatype Author = UserAuthor | Bot

  datatype ChatLine = ChatLine(author: Author, text: string, imageUrl: Option<string>)

  /** How a tool request ended. */
  datatype ToolResponse =
    | Answered(dataJson: string, geoJson: Option<string>, imageUrl: Option<string>)  // ok; the data as pretty JSON
    | Rejected(detail: string, statusText: string)                                   // not ok; detail "" when absent
    | Thrown(message: string)                                                         // fetch or JSON failure

  /** The text of the bot's error line for a rejected request: the detail, or "Error: <status>". */
  function RejectionText(detail: string, statusText: string): (t: string)
    ensures detail != "" ==> t == detail
    ensures detail == "" ==> t == "Error: " + statusText
  {
    if detail != "" then detail else "Error: " + statusText
  }

  /** What the chat shows and what it is waiting for. */
  datatype Panel = Panel(messages: seq<ChatLine>, input: string, geojson: Option<string>, inFlight: seq<ToolCall>)

  /** The bot line a failed parse adds: the error thrown inside the `try`. */
  function ParseReplies(r: Result<ToolCall, string>): (lines: seq<ChatLine>)
    ensures r.Ok? ==> lines == []
    ensures r.Err? ==> lines == [ChatLine(Bot, r.error, None)]
  {
    if r.Err? then [ChatLine(Bot, r.error, None)] else []
  }

  /** The request a successful parse sends. */
  function Requests(r: Result<ToolCall, string>): (calls: seq<ToolCall>)
    ensures r.Ok? ==> calls == [r.value]
    ensures r.Err? ==> calls == []
  {
    if r.Ok? then [r.value] else []
  }

  /** A non-blank input submitted with parse outcome `r`: the user line, the input cleared, then the request or the error. */
  function Submit(p: Panel, r: Result<ToolCall, string>): Panel {
    p.(messages := p.messages + [ChatLine(UserAuthor, p.input, None)] + ParseReplies(r),
       input := "",
       inFlight := p.inFlight + Requests(r))
  }

  /** sendMessage: blank input is ignored, any other is submitted with its parse. */
  function Send(p: Panel, jsonParses: string -> bool): Panel {
    if Text.Trim(p.input) == [] then p else Submit(p, ParseCommand(p.input, jsonParses))
  }

  /** A request settles: it leaves the in-flight list and exactly one bot line is added. */
  function Respond(p: Panel, k: nat, response: ToolResponse): Panel
    requires k < |p.inFlight|
  {
    var rest := p.inFlight[..k] + p.inFlight[k + 1..];
    match response
    case Answered(data, geo, image) =>
      p.(messages := p.messages + [ChatLine(Bot, data, image)], geojson := geo, inFlight := rest)
    case Rejected(detail, status) =>
      p.(messages := p.messages + [ChatLine(Bot, RejectionText(detail, status), None)], inFlight := rest)
    case Thrown(message) =>
      p.(messages := p.messages + [ChatLine(Bot, message, None)], inFlight := rest)
  }

  /** Pressing enter on a blank input changes nothing. */
  lemma SendIgnoresBlank(p: Panel, jsonParses: string -> bool)
    requires Text.AllSpace(p.input)
    ensures Send(p, jsonParses) == p
  {
    Text.BlankIffAllSpace(p.input);
  }

  /**
    A submitted command adds the user's line and clears the input; then
    either the parsed call is sent, or the parse error becomes one bot line
    and nothing is sent.
  */
  lemma SubmitEffect(p: Panel, r: Result<ToolCall, string>)
    ensures var q := Submit(p, r);
      && q.input == "" && q.geojson == p.geojson
      && q.messages[..|p.messages| + 1] == p.messages + [ChatLine(UserAuthor, p.input, None)]
      && (r.Ok? ==> |q.messages| == |p.messages| + 1 && q.inFlight == p.inFlight + [r.value])
      && (r.Err? ==> q.messages == p.messages + [ChatLine(UserAuthor, p.input, None), ChatLine(Bot, r.error, None)]
                     && q.inFlight == p.inFlight)
  {
    var user := p.messages + [ChatLine(UserAuthor, p.input, None)];
    assert (user + ParseReplies(r))[..|user|] == user;
  }

  /** Every line a response adds is the bot's, and the other requests stay in flight in order. */
  lemma RespondEffect(p: Panel, k: nat, response: ToolResponse)
    requires k < |p.inFlight|
    ensures var q := Respond(p, k, response);
      && |q.messages| == |p.messages| + 1 && q.messages[..|p.messages|] == p.messages
      && q.messages[|p.messages|].author == Bot
      && |q.inFlight| == |p.inFlight| - 1
      && (forall i :: 0 <= i < k ==> q.inFlight[i] == p.inFlight[i])
      && (forall i :: k <= i < |q.inFlight| ==> q.inFlight[i] == p.inFlight[i + 1])
      && q.input == p.input
      && (q.geojson != p.geojson ==> response.Answered?)
  {
    var q := Respond(p, k, response);
    assert q.messages[..|p.messages|] == p.messages;
  }

  class TestChatPanel {
    const jsonParses: string -> bool
    var messages: seq<ChatLine>
    var input: string
    var geojson: Option<string>
    /** Tool calls sent and not yet answered. */
    var inFlight: seq<ToolCall>

    function Snapshot(): Panel
      reads this
    {
      Panel(messages, input, geojson, inFlight)
    }

    constructor (jsonParses: string -> bool)
      ensures this.jsonParses == jsonParses
      ensures Snapshot() == Panel([], "", None, [])
    {
      this.jsonParses := jsonParses;
      messages, input, geojson, inFlight := [], "", None, [];
    }

    method TypeInput(text: string)
      modifies this`input
      ensures Snapshot() == old(Snapshot()).(input := text)
    {
      input := text;
    }

    /** sendMessage: ignore a blank input, else submit it with its parse. */
    method SendMessage()
      modifies this`messages, this`input, this`inFlight
      ensures Snapshot() == Send(old(Snapshot()), jsonParses)
    {
      if Text.Trim(input) == [] {
        return;
      }
      var parsed := ParseCommand(input, jsonParses);
      Post(parsed);
    }

    /** The state updates of a submitted command, given how its parse ended. */
    method Post(parsed: Result<ToolCall, string>)
      modifies this`messages, this`input, this`inFlight
      ensures Snapshot() == Submit(old(Snapshot()), parsed)
    {
      messages := messages + [ChatLine(UserAuthor, input, None)];
      input := "";
      match parsed {
        case Ok(call) => inFlight := inFlight + [call];
        case Err(e) => messages := messages + [ChatLine(Bot, e, None)];
      }
    }

    /** The k-th request in flight settles. */
    method OnToolResponse(k: nat, response: ToolResponse)
      requires k < |inFlight|
      modifies this`messages, this`geojson, this`inFlight
      ensures Snapshot() == Respond(old(Snapshot()), k, response)
    {
      inFlight := inFlight[..k] + inFlight[k + 1..];
      match response {
        case Answered(data, geo, image) =>
          geojson := geo;
          messages := messages + [ChatLine(Bot, data, image)];
        case Rejected(detail, status) =>
          messages := messages + [ChatLine(Bot, RejectionText(detail, status), None)];
        case Thrown(message) =>
          messages := messages + [ChatLine(Bot, message, None)];
      }
    }
  }
}
