/**
 * The JSON-dialect controller (WLedController.py): every setter checks its
 * argument against a closed interval, builds a JSON-object text with
 * `BuildData` and POSTs it to `<device>/json/`; the response's first
 * top-level key is the status token.
 *
 * The HTTP transport is a parameter: a POST yields the top-level keys of the
 * parsed response (`Posted`), a GET yields the parsed status document
 * (`Fetched`), either of which may fail instead.
 */
module JsonDialect {
  import opened Text
  import opened Errors
  import opened Colors

  /** Which status sub-resource `GetStatus` fetches (`Specifier`). */
  datatype Specifier = Whole | State | Info | Effects | Palettes | Live

  function SpecifierValue(s: Specifier): string {
    match s
    case Whole => ""
    case State => "state"
    case Info => "info"
    case Effects => "effects"
    case Palettes => "palettes"
    case Live => "live"
  }

  /** The nightlight modes and the firmware's integer codes for them. */
  datatype NightlightMode = Instant | Fade | ColorFade | Sunrise

  function ModeValue(m: NightlightMode): (v: int)
    ensures 0 <= v <= 3
  {
    match m
    case Instant => 0
    case Fade => 1
    case ColorFade => 2
    case Sunrise => 3
  }

  lemma ModeValueInjective(a: NightlightMode, b: NightlightMode)
    ensures ModeValue(a) == ModeValue(b) ==> a == b
  {
  }

  /** A parsed JSON value, as the status document holds them. */
  datatype Json =
    | Null
    | Bool(b: bool)
    | Number(n: int)
    | Str(s: string)
    | Array(items: seq<Json>)
    | Object(fields: map<string, Json>)

  /** What a GET followed by `.json()` gives: the status object, or a failure. */
  datatype Fetched = Document(fields: map<string, Json>) | FetchFailed

  /** What a POST followed by `json.loads` gives: the top-level keys in order, or a failure. */
  datatype Posted = Parsed(keys: seq<string>) | PostFailed

  // ---------------------------------------------------------------------------
  // Payload building (`_build_data`)

  /** One `"key": value` member; the value text goes in verbatim. */
  function Entry(p: (string, string)): string {
    "\"" + p.0 + "\": " + p.1
  }

  function Entries(pairs: seq<(string, string)>): seq<string> {
    seq(|pairs|, i requires 0 <= i < |pairs| => Entry(pairs[i]))
  }

  /** The JSON-object text of the pairs, entries separated by ", ". */
  function BuildData(pairs: seq<(string, string)>): (r: string)
    ensures |r| >= 2 && r[0] == '{' && r[|r| - 1] == '}'
  {
    "{" + Join(", ", Entries(pairs)) + "}"
  }

  /** Zero pairs give the empty object. */
  lemma BuildDataEmpty()
    ensures BuildData([]) == "{}"
  {
  }

  /** Braces around the first entry followed by every other entry preceded by ", ". */
  lemma BuildDataLayout(pairs: seq<(string, string)>)
    requires |pairs| >= 1
    ensures BuildData(pairs) == "{" + Entry(pairs[0]) + Prefixed(", ", Entries(pairs[1..])) + "}"
  {
    JoinIsFirstThenPrefixed(", ", Entries(pairs));
    assert Entries(pairs)[1..] == Entries(pairs[1..]);
  }

  /** Adding a pair at the end adds its entry, after ", ", before the closing brace. */
  lemma BuildDataSnoc(pairs: seq<(string, string)>, p: (string, string))
    requires |pairs| >= 1
    ensures BuildData(pairs + [p]) == BuildData(pairs)[..|BuildData(pairs)| - 1] + ", " + Entry(p) + "}"
  {
    var all := pairs + [p];
    BuildDataLayout(pairs);
    BuildDataLayout(all);
    assert all[0] == pairs[0];
    assert all[1..] == pairs[1..] + [p];
    assert Entries(all[1..]) == Entries(pairs[1..]) + [Entry(p)];
    PrefixedAppend(", ", Entries(pairs[1..]), [Entry(p)]);
    assert Prefixed(", ", [Entry(p)]) == ", " + Entry(p);
    var body := "{" + Entry(pairs[0]) + Prefixed(", ", Entries(pairs[1..]));
    assert BuildData(pairs) == body + "}";
    assert BuildData(pairs)[..|BuildData(pairs)| - 1] == body;
  }

  /** One pair gives exactly `{"key": value}`. */
  lemma BuildDataSingle(key: string, value: string)
    ensures BuildData([(key, value)]) == "{\"" + key + "\": " + value + "}"
  {
    assert Entries([(key, value)]) == [Entry((key, value))];
  }

  /** A segment command nests one object inside another: `{"seg": {"key": value}}`. */
  lemma SegmentPayload(key: string, value: string)
    ensures BuildData([("seg", BuildData([(key, value)]))]) == "{\"seg\": {\"" + key + "\": " + value + "}}"
  {
    BuildDataSingle(key, value);
    BuildDataSingle("seg", BuildData([(key, value)]));
  }

  // ---------------------------------------------------------------------------
  // Validation and the payload each setter sends
  //
  // Each command below asserts that its key, spliced into the payload's opening
  // text, gives the literal its contract names; that step is the solver's costliest.

  /** The payload a setter sends for `value` under `key`, or the rejection a bound check raises. */
  function Bounded(key: string, value: int, lo: int, hi: int, rejection: Error): (r: Result<string>)
    ensures r.Ok? <==> lo <= value <= hi
    ensures r.Err? ==> r.error == rejection
    ensures r.Ok? ==> r.value == "{\"" + key + "\": " + IntToString(value) + "}"
  {
    BuildDataSingle(key, IntToString(value));
    if value < lo || value > hi then Err(rejection) else Ok(BuildData([(key, IntToString(value))]))
  }

  /** The number a single-pair payload carries can be read back from between ": " and the closing brace. */
  lemma PayloadNamesValue(key: string, value: int)
    ensures var p := "{\"" + key + "\": " + IntToString(value) + "}";
      ParseInt(p[|key| + 5 .. |p| - 1]) == Some(value)
  {
    var p := "{\"" + key + "\": " + IntToString(value) + "}";
    assert p[|key| + 5 .. |p| - 1] == IntToString(value);
    IntToStringRoundTrip(value);
  }

  /** Like `Bounded`, nested inside the segment object. */
  function SegmentBounded(key: string, value: int, lo: int, hi: int, rejection: Error): (r: Result<string>)
    ensures r.Ok? <==> lo <= value <= hi
    ensures r.Err? ==> r.error == rejection
    ensures r.Ok? ==> r.value == "{\"seg\": {\"" + key + "\": " + IntToString(value) + "}}"
  {
    SegmentPayload(key, IntToString(value));
    if value < lo || value > hi then Err(rejection)
    else Ok(BuildData([("seg", BuildData([(key, IntToString(value))]))]))
  }

  function BrightnessCommand(brightness: int): (r: Result<string>)
    ensures r.Ok? <==> 0 <= brightness <= 255
    ensures r.Err? ==> r.error == ValueOutOfBounds(Int(brightness), Int(0), Int(255))
    ensures r.Ok? ==> r.value == "{\"bri\": " + IntToString(brightness) + "}"
  {
    assert "{\"" + "bri" + "\": " == "{\"bri\": ";
    Bounded("bri", brightness, 0, 255, ValueOutOfBounds(Int(brightness)))
  }

  /**
   * The millisecond input is divided by 100 as a float and bounded by
   * [0, 65535]; the floor of the quotient is sent. Over integers that is
   * `0 <= ms <= 6553500` and `ms / 100`.
   */
  function TransitionCommand(milliseconds: int): (r: Result<string>)
    ensures r.Ok? <==> 0 <= milliseconds <= 6553500
    ensures r.Err? ==> r.error == ValueOutOfBounds(Centi(milliseconds), Int(0), Int(65535))
    ensures r.Ok? ==> r.value == "{\"transition\": " + IntToString(milliseconds / 100) + "}"
    ensures r.Ok? ==>
      && 0 <= milliseconds / 100 <= 65535
      && 100 * (milliseconds / 100) <= milliseconds < 100 * (milliseconds / 100) + 100
  {
    assert "{\"" + "transition" + "\": " == "{\"transition\": ";
    BuildDataSingle("transition", IntToString(milliseconds / 100));
    if milliseconds < 0 || milliseconds > 65535 * 100 then
      Err(ValueOutOfBounds(Centi(milliseconds), stop := Int(65535)))
    else
      Ok(BuildData([("transition", IntToString(milliseconds / 100))]))
  }

  /** Preset -1 means "no preset"; the firmware stores presets up to 250. */
  function PresetCommand(preset: int): (r: Result<string>)
    ensures r.Ok? <==> -1 <= preset <= 250
    ensures r.Err? ==> r.error == ValueOutOfBounds(Int(preset), Int(-1), Int(250))
    ensures r.Ok? ==> r.value == "{\"ps\": " + IntToString(preset) + "}"
  {
    assert "{\"" + "ps" + "\": " == "{\"ps\": ";
    Bounded("ps", preset, -1, 250, ValueOutOfBounds(Int(preset), start := Int(-1), stop := Int(250)))
  }

  function TimerCommand(minutes: int): (r: Result<string>)
    ensures r.Ok? <==> 0 <= minutes <= 255
    ensures r.Err? ==> r.error == ValueOutOfBounds(Int(minutes), Int(0), Int(255))
    ensures r.Ok? ==> r.value == "{\"nl.dur\": " + IntToString(minutes) + "}"
  {
    assert "{\"" + "nl.dur" + "\": " == "{\"nl.dur\": ";
    Bounded("nl.dur", minutes, 0, 255, ValueOutOfBounds(Int(minutes)))
  }

  /** Every mode is accepted; its integer code is sent. */
  function TimerModeCommand(mode: NightlightMode): (r: string)
    ensures r == "{\"nl.mode\": " + IntToString(ModeValue(mode)) + "}"
  {
    assert "{\"" + "nl.mode" + "\": " == "{\"nl.mode\": ";
    BuildDataSingle("nl.mode", IntToString(ModeValue(mode)));
    BuildData([("nl.mode", IntToString(ModeValue(mode)))])
  }

  function TimerBrightnessCommand(targetBrightness: int): (r: Result<string>)
    ensures r.Ok? <==> 0 <= targetBrightness <= 255
    ensures r.Err? ==> r.error == ValueOutOfBounds(Int(targetBrightness), Int(0), Int(255))
    ensures r.Ok? ==> r.value == "{\"nl.tbri\": " + IntToString(targetBrightness) + "}"
  {
    assert "{\"" + "nl.tbri" + "\": " == "{\"nl.tbri\": ";
    Bounded("nl.tbri", targetBrightness, 0, 255, ValueOutOfBounds(Int(targetBrightness)))
  }

  /**
   * Effects 0..117 are accepted, yet the rejection reports the range as
   * (0, 101), the bound of the query dialect.
   */
  function EffectCommand(effect: int): (r: Result<string>)
    ensures r.Ok? <==> 0 <= effect <= 117
    ensures r.Err? ==> r.error == ValueOutOfBounds(Int(effect), Int(0), Int(101))
    ensures r.Ok? ==> r.value == "{\"seg\": {\"fx\": " + IntToString(effect) + "}}"
  {
    assert "{\"seg\": {\"" + "fx" + "\": " == "{\"seg\": {\"fx\": ";
    SegmentBounded("fx", effect, 0, 117, ValueOutOfBounds(Int(effect), stop := Int(101)))
  }

  /** The reported stop of a rejected effect does not match the bound actually checked. */
  lemma EffectReportsNarrowerRange(effect: int)
    ensures 101 < effect <= 117 ==> EffectCommand(effect).Ok?
    ensures effect < 0 || effect > 117 ==> EffectCommand(effect).error.stop == Int(101)
  {
  }

  function EffectSpeedCommand(speed: int): (r: Result<string>)
    ensures r.Ok? <==> 0 <= speed <= 255
    ensures r.Err? ==> r.error == ValueOutOfBounds(Int(speed), Int(0), Int(255))
    ensures r.Ok? ==> r.value == "{\"seg\": {\"sx\": " + IntToString(speed) + "}}"
  {
    assert "{\"seg\": {\"" + "sx" + "\": " == "{\"seg\": {\"sx\": ";
    SegmentBounded("sx", speed, 0, 255, ValueOutOfBounds(Int(speed)))
  }

  function EffectIntensityCommand(intensity: int): (r: Result<string>)
    ensures r.Ok? <==> 0 <= intensity <= 255
    ensures r.Err? ==> r.error == ValueOutOfBounds(Int(intensity), Int(0), Int(255))
    ensures r.Ok? ==> r.value == "{\"seg\": {\"ix\": " + IntToString(intensity) + "}}"
  {
    assert "{\"seg\": {\"" + "ix" + "\": " == "{\"seg\": {\"ix\": ";
    SegmentBounded("ix", intensity, 0, 255, ValueOutOfBounds(Int(intensity)))
  }

  // ---------------------------------------------------------------------------
  // Colours

  /** The position of the first colour that fails the check, if any. */
  function FirstInvalid(colors: seq<Color>): (r: Option<nat>)
    ensures r.None? <==> forall i :: 0 <= i < |colors| ==> ValidColor(colors[i])
    ensures r.Some? ==>
      && r.value < |colors| && !ValidColor(colors[r.value])
      && forall j :: 0 <= j < r.value ==> ValidColor(colors[j])
    decreases |colors|
  {
    if colors == [] then None
    else if !ValidColor(colors[0]) then Some(0)
    else match FirstInvalid(colors[1..])
      case None => None
      case Some(k) => Some(k + 1)
  }

  /** `str(list(colors))` for colours given as lists: `[[r, g, b], ...]`. */
  function ColorsText(colors: seq<Color>): string {
    "[" + Join(", ", ColorTexts(colors)) + "]"
  }

  /** `str(color)` of each colour, in order. */
  function ColorTexts(colors: seq<Color>): seq<string> {
    seq(|colors|, i requires 0 <= i < |colors| => Show(IntList(Channels(colors[i]))))
  }

  /** A non-empty colour list renders as `[[r, g, b], ...]`: the first colour, then each other after ", ". */
  lemma ColorsTextLayout(colors: seq<Color>)
    requires |colors| >= 1
    ensures ColorsText(colors) == "[" + Show(IntList(Channels(colors[0]))) + Prefixed(", ", ColorTexts(colors[1..])) + "]"
  {
    DelimitedJoin("[", ", ", ColorTexts(colors), "]");
    ColorTextsTail(colors);
  }

  /** Dropping the first colour drops its text. */
  lemma ColorTextsTail(colors: seq<Color>)
    requires |colors| >= 1
    ensures ColorTexts(colors)[1..] == ColorTexts(colors[1..])
  {
    var ts, rest := ColorTexts(colors), ColorTexts(colors[1..]);
    assert forall i :: 0 <= i < |rest| ==> ts[1..][i] == rest[i];
  }

  function ColorRejection(c: Color): Error {
    ValueOutOfBounds(IntList(Channels(c)), IntTuple([0, 0, 0]), IntTuple([255, 255, 255]))
  }

  /** Every colour is checked before anything is sent; all of them go in one payload. */
  function ColorsCommand(colors: seq<Color>): (r: Result<string>)
    ensures r.Ok? <==> forall i :: 0 <= i < |colors| ==> ValidColor(colors[i])
    ensures r.Err? ==> exists i ::
      && 0 <= i < |colors| && !ValidColor(colors[i])
      && r.error == ColorRejection(colors[i])
      && forall j :: 0 <= j < i ==> ValidColor(colors[j])
    ensures r.Ok? ==> r.value == "{\"seg\": {\"col\": " + ColorsText(colors) + "}}"
  {
    match FirstInvalid(colors)
    case Some(i) =>
      assert 0 <= i < |colors| && !ValidColor(colors[i]) && forall j :: 0 <= j < i ==> ValidColor(colors[j]);
      Err(ColorRejection(colors[i]))
    case None => Ok(ColorsPayload(colors))
  }

  /** The payload of `set_colors`: the colour list under `col`, inside the segment object. */
  function ColorsPayload(colors: seq<Color>): (p: string)
    ensures p == "{\"seg\": {\"col\": " + ColorsText(colors) + "}}"
  {
    assert "{\"seg\": {\"" + "col" + "\": " == "{\"seg\": {\"col\": ";
    SegmentPayload("col", ColorsText(colors));
    BuildData([("seg", BuildData([("col", ColorsText(colors))]))])
  }

  /** The loop of `set_colors`: the first colour that fails the check, scanning in order. */
  method CheckColors(colors: seq<Color>) returns (bad: Option<nat>)
    ensures bad == FirstInvalid(colors)
  {
    var i := 0;
    while i < |colors|
      invariant 0 <= i <= |colors|
      invariant forall j :: 0 <= j < i ==> ValidColor(colors[j])
    {
      if Min3(colors[i]) < 0 || Max3(colors[i]) > 255 {
        FirstInvalidIs(colors, i);
        return Some(i);
      }
      i := i + 1;
    }
    return None;
  }

  /** The first colour failing the check determines `FirstInvalid`. */
  lemma FirstInvalidIs(colors: seq<Color>, i: nat)
    requires i < |colors| && !ValidColor(colors[i])
    requires forall j :: 0 <= j < i ==> ValidColor(colors[j])
    ensures FirstInvalid(colors) == Some(i)
  {
    var r := FirstInvalid(colors);
    assert r.Some?;
    assert !(r.value < i) && !(i < r.value);
  }

  // ---------------------------------------------------------------------------
  // Commands without an argument

  datatype Switch = Activate | Deactivate | Toggle | ActivateTimer | DeactivateTimer | ActivateLive | DeactivateLive

  function SwitchPair(s: Switch): (string, string) {
    match s
    case Activate => ("on", "true")
    case Deactivate => ("on", "false")
    case Toggle => ("on", "\"t\"")
    case ActivateTimer => ("nl.on", "true")
    case DeactivateTimer => ("nl.on", "false")
    case ActivateLive => ("live", "true")
    case DeactivateLive => ("live", "false")
  }

  /** The payload of a switch: its one pair as an object. */
  function SwitchPayload(s: Switch): (r: string)
    ensures r == "{\"" + SwitchPair(s).0 + "\": " + SwitchPair(s).1 + "}"
  {
    BuildDataSingle(SwitchPair(s).0, SwitchPair(s).1);
    BuildData([SwitchPair(s)])
  }

  /** Toggle asks for a flip with the quoted literal "t" rather than an absolute state. */
  lemma TogglePayload()
    ensures SwitchPayload(Toggle) == "{\"on\": \"t\"}"
  {
  }

  /** Different switches send different payloads. */
  lemma SwitchPayloadInjective(a: Switch, b: Switch)
    ensures SwitchPayload(a) == SwitchPayload(b) ==> a == b
  {
    var pa, pb := SwitchPayload(a), SwitchPayload(b);
    assert |pa| == 6 + |SwitchPair(a).0| + |SwitchPair(a).1|;
    assert |pb| == 6 + |SwitchPair(b).0| + |SwitchPair(b).1|;
    assert pa[2] == SwitchPair(a).0[0] && pb[2] == SwitchPair(b).0[0];
    assert pa[|pa| - 2] == SwitchPair(a).1[|SwitchPair(a).1| - 1];
    assert pb[|pb| - 2] == SwitchPair(b).1[|SwitchPair(b).1| - 1];
  }

  // ---------------------------------------------------------------------------
  // The send pipeline (`set_arguments`)

  const MajorError := "major error occured with argument "

  /** `list(json.loads(text))[0]`: the first top-level key, when the response parsed into a non-empty object. */
  function StatusToken(response: Posted): (t: Option<string>)
    ensures t.Some? <==> response.Parsed? && |response.keys| > 0
  {
    if response.Parsed? && |response.keys| > 0 then Some(response.keys[0]) else None
  }

  /** The body of the `try`: what it raises, before the bare `except` folds it. */
  function Attempt(jsonUrl: string, arguments: string, response: Posted): (r: Outcome)
    ensures r == Pass <==> StatusToken(response).Some? && StatusToken(response).value != "error"
    ensures StatusToken(response) == Some("error") ==> r == Fail(InvalidArgument(arguments))
  {
    match StatusToken(response)
    case None => Fail(RequestFailed(jsonUrl))
    case Some(status) => if status == "error" then Fail(InvalidArgument(arguments)) else Pass
  }

  /** What `set_arguments` returns or raises: every failure becomes one error naming the arguments. */
  function PostOutcome(jsonUrl: string, arguments: string, response: Posted): (r: Outcome)
    ensures r == Pass <==> StatusToken(response).Some? && StatusToken(response).value != "error"
    ensures r.Fail? ==> r.error == CommandFailed(arguments)
  {
    match Attempt(jsonUrl, arguments, response)
    case Pass => Pass
    case Fail(_) => Fail(CommandFailed(arguments))
  }

  /** The line logged for a parsed response. */
  function Reported(arguments: string, status: string): string {
    arguments + " --> " + status
  }

  /** The lines `set_arguments` logs, without their timestamps. */
  function PostLog(jsonUrl: string, arguments: string, response: Posted, log: bool): (lines: seq<string>)
    ensures !log ==> lines == []
    ensures log && StatusToken(response).None? ==> lines == [MajorError + arguments]
    ensures log && StatusToken(response) == Some("error") ==>
      lines == [Reported(arguments, "error"), MajorError + arguments]
    ensures log && PostOutcome(jsonUrl, arguments, response) == Pass ==>
      lines == [Reported(arguments, StatusToken(response).value)]
  {
    if !log then []
    else
      (match StatusToken(response) case Some(status) => [Reported(arguments, status)] case None => [])
      + (if Attempt(jsonUrl, arguments, response).Fail? then [MajorError + arguments] else [])
  }

  /** A response of "error" is folded into the generic failure, logged twice when logging. */
  lemma ErrorTokenFolded(jsonUrl: string, arguments: string, keys: seq<string>, log: bool)
    requires |keys| > 0 && keys[0] == "error"
    ensures PostOutcome(jsonUrl, arguments, Parsed(keys)) == Fail(CommandFailed(arguments))
    ensures |PostLog(jsonUrl, arguments, Parsed(keys), log)| == if log then 2 else 0
  {
  }

  /** What the controller was created with, or why it could not be. */
  datatype Connection = Connected(controller: Controller) | Unreachable(error: Error)

  class Controller {
    const apiUrl: string
    const jsonUrl: string
    var log: bool
    /** The bodies POSTed to `jsonUrl`, in order. */
    ghost var sent: seq<string>
    /** The lines logged, without their timestamps. */
    ghost var logLines: seq<string>

    constructor (socket: string, log: bool)
      ensures apiUrl == "http://" + socket + "/" && jsonUrl == apiUrl + "json/"
      ensures this.log == log && sent == [] && logLines == []
    {
      apiUrl := "http://" + socket + "/";
      jsonUrl := "http://" + socket + "/" + "json/";
      this.log := log;
      sent := [];
      logLines := [];
    }

    /** Construction probes the full status; any failure there means no controller at all. */
    static method Connect(socket: string, log: bool, probe: Fetched) returns (r: Connection)
      ensures r.Connected? <==> probe.Document?
      ensures r.Unreachable? ==> r.error == UnreachableSocket(socket)
      ensures r.Connected? ==>
        && fresh(r.controller) && r.controller.log == log
        && r.controller.apiUrl == "http://" + socket + "/"
        && r.controller.jsonUrl == r.controller.apiUrl + "json/"
        && r.controller.sent == [] && r.controller.logLines == []
    {
      var c := new Controller(socket, log);
      if c.GetStatus(Whole, "", probe).Err? {
        return Unreachable(UnreachableSocket(socket));
      }
      return Connected(c);
    }

    method ActivateLog()
      modifies this`log
      ensures log && sent == old(sent) && logLines == old(logLines)
    {
      log := true;
    }

    method DeactivateLog()
      modifies this`log
      ensures !log && sent == old(sent) && logLines == old(logLines)
    {
      log := false;
    }

    function StatusUrl(specifier: Specifier): string {
      jsonUrl + SpecifierValue(specifier)
    }

    /**
     * The status document, or the value under `mainKey` when the key is
     * non-empty (Python treats "" like a missing key argument).
     */
    function GetStatus(specifier: Specifier, mainKey: string, response: Fetched): (r: Result<Json>)
      ensures response.FetchFailed? ==> r == Err(RequestFailed(StatusUrl(specifier)))
      ensures response.Document? && mainKey == "" ==> r == Ok(Object(response.fields))
      ensures response.Document? && mainKey != "" ==>
        (r.Ok? <==> mainKey in response.fields)
        && (r.Ok? ==> r.value == response.fields[mainKey])
        && (r.Err? ==> r.error == InvalidMainKey(mainKey))
    {
      match response
      case FetchFailed => Err(RequestFailed(StatusUrl(specifier)))
      case Document(doc) =>
        if mainKey == "" then Ok(Object(doc))
        else if mainKey in doc then Ok(doc[mainKey])
        else Err(InvalidMainKey(mainKey))
    }

    /**
     * The remaining nightlight time: `rem` inside the `nl` object of the state
     * document. Indexing an `nl` that is not an object raises a `TypeError`.
     */
    function GetTimer(response: Fetched): (r: Result<Json>)
      ensures r.Ok? <==>
        && response.Document? && "nl" in response.fields
        && response.fields["nl"].Object? && "rem" in response.fields["nl"].fields
      ensures r.Ok? ==> r.value == response.fields["nl"].fields["rem"]
      ensures response.FetchFailed? ==> r == Err(RequestFailed(StatusUrl(State)))
      ensures response.Document? && "nl" !in response.fields ==> r == Err(InvalidMainKey("nl"))
      ensures response.Document? && "nl" in response.fields && !response.fields["nl"].Object? ==>
        r == Err(NotSubscriptable("rem"))
      ensures response.Document? && "nl" in response.fields && response.fields["nl"].Object?
          && "rem" !in response.fields["nl"].fields
        ==> r == Err(KeyMissing("rem"))
    {
      match GetStatus(State, "nl", response)
      case Err(e) => Err(e)
      case Ok(nl) =>
        if !nl.Object? then Err(NotSubscriptable("rem"))
        else if "rem" in nl.fields then Ok(nl.fields["rem"])
        else Err(KeyMissing("rem"))
    }

    /** POST the arguments and interpret the response. */
    method SetArguments(arguments: string, response: Posted) returns (r: Outcome)
      modifies this`sent, this`logLines
      ensures sent == old(sent) + [arguments]
      ensures logLines == old(logLines) + PostLog(jsonUrl, arguments, response, log)
      ensures r == PostOutcome(jsonUrl, arguments, response)
    {
      sent := sent + [arguments];
      var attempt := Pass;
      match StatusToken(response) {
        case None =>
          attempt := Fail(RequestFailed(jsonUrl));
        case Some(status) =>
          if log {
            logLines := logLines + [Reported(arguments, status)];
          }
          if status == "error" {
            attempt := Fail(InvalidArgument(arguments));
          }
      }
      if attempt.Fail? {
        if log {
          logLines := logLines + [MajorError + arguments];
        }
        return Fail(CommandFailed(arguments));
      }
      return Pass;
    }

    /** Send the payload of a checked command; a rejected command raises and sends nothing. */
    method Submit(command: Result<string>, response: Posted) returns (r: Outcome)
      modifies this`sent, this`logLines
      ensures command.Err? ==> r == Fail(command.error) && sent == old(sent) && logLines == old(logLines)
      ensures command.Ok? ==>
        && r == PostOutcome(jsonUrl, command.value, response)
        && sent == old(sent) + [command.value]
        && logLines == old(logLines) + PostLog(jsonUrl, command.value, response, log)
    {
      if command.Err? {
        return Fail(command.error);
      }
      r := SetArguments(command.value, response);
    }

    method Switch(s: Switch, response: Posted) returns (r: Outcome)
      modifies this`sent, this`logLines
      ensures r == PostOutcome(jsonUrl, SwitchPayload(s), response)
      ensures sent == old(sent) + [SwitchPayload(s)]
      ensures logLines == old(logLines) + PostLog(jsonUrl, SwitchPayload(s), response, log)
    {
      r := SetArguments(SwitchPayload(s), response);
    }

    method SetBrightness(brightness: int, response: Posted) returns (r: Outcome)
      modifies this`sent, this`logLines
      ensures BrightnessCommand(brightness).Err? ==>
        r == Fail(ValueOutOfBounds(Int(brightness))) && sent == old(sent) && logLines == old(logLines)
      ensures BrightnessCommand(brightness).Ok? ==>
        r == PostOutcome(jsonUrl, BrightnessCommand(brightness).value, response)
        && sent == old(sent) + [BrightnessCommand(brightness).value]
        && logLines == old(logLines) + PostLog(jsonUrl, BrightnessCommand(brightness).value, response, log)
    {
      r := Submit(BrightnessCommand(brightness), response);
    }

    method SetTransition(milliseconds: int, response: Posted) returns (r: Outcome)
      modifies this`sent, this`logLines
      ensures TransitionCommand(milliseconds).Err? ==>
        r == Fail(TransitionCommand(milliseconds).error) && sent == old(sent) && logLines == old(logLines)
      ensures TransitionCommand(milliseconds).Ok? ==>
        r == PostOutcome(jsonUrl, TransitionCommand(milliseconds).value, response)
        && sent == old(sent) + [TransitionCommand(milliseconds).value]
        && logLines == old(logLines) + PostLog(jsonUrl, TransitionCommand(milliseconds).value, response, log)
    {
      r := Submit(TransitionCommand(milliseconds), response);
    }

    method SetPreset(preset: int, response: Posted) returns (r: Outcome)
      modifies this`sent, this`logLines
      ensures PresetCommand(preset).Err? ==>
        r == Fail(PresetCommand(preset).error) && sent == old(sent) && logLines == old(logLines)
      ensures PresetCommand(preset).Ok? ==>
        r == PostOutcome(jsonUrl, PresetCommand(preset).value, response)
        && sent == old(sent) + [PresetCommand(preset).value]
        && logLines == old(logLines) + PostLog(jsonUrl, PresetCommand(preset).value, response, log)
    {
      r := Submit(PresetCommand(preset), response);
    }

    method SetTimer(minutes: int, response: Posted) returns (r: Outcome)
      modifies this`sent, this`logLines
      ensures TimerCommand(minutes).Err? ==>
        r == Fail(TimerCommand(minutes).error) && sent == old(sent) && logLines == old(logLines)
      ensures TimerCommand(minutes).Ok? ==>
        r == PostOutcome(jsonUrl, TimerCommand(minutes).value, response)
        && sent == old(sent) + [TimerCommand(minutes).value]
        && logLines == old(logLines) + PostLog(jsonUrl, TimerCommand(minutes).value, response, log)
    {
      r := Submit(TimerCommand(minutes), response);
    }

    method SetTimerMode(mode: NightlightMode, response: Posted) returns (r: Outcome)
      modifies this`sent, this`logLines
      ensures r == PostOutcome(jsonUrl, TimerModeCommand(mode), response)
      ensures sent == old(sent) + [TimerModeCommand(mode)]
      ensures logLines == old(logLines) + PostLog(jsonUrl, TimerModeCommand(mode), response, log)
    {
      r := SetArguments(TimerModeCommand(mode), response);
    }

    method SetTimerBrightness(targetBrightness: int, response: Posted) returns (r: Outcome)
      modifies this`sent, this`logLines
      ensures TimerBrightnessCommand(targetBrightness).Err? ==>
        r == Fail(TimerBrightnessCommand(targetBrightness).error) && sent == old(sent) && logLines == old(logLines)
      ensures TimerBrightnessCommand(targetBrightness).Ok? ==>
        r == PostOutcome(jsonUrl, TimerBrightnessCommand(targetBrightness).value, response)
        && sent == old(sent) + [TimerBrightnessCommand(targetBrightness).value]
        && logLines == old(logLines) + PostLog(jsonUrl, TimerBrightnessCommand(targetBrightness).value, response, log)
    {
      r := Submit(TimerBrightnessCommand(targetBrightness), response);
    }

    method SetColors(colors: seq<Color>, response: Posted) returns (r: Outcome)
      modifies this`sent, this`logLines
      ensures ColorsCommand(colors).Err? ==>
        r == Fail(ColorsCommand(colors).error) && sent == old(sent) && logLines == old(logLines)
      ensures ColorsCommand(colors).Ok? ==>
        r == PostOutcome(jsonUrl, ColorsCommand(colors).value, response)
        && sent == old(sent) + [ColorsCommand(colors).value]
        && logLines == old(logLines) + PostLog(jsonUrl, ColorsCommand(colors).value, response, log)
    {
      var bad := CheckColors(colors);
      if bad.Some? {
        return Fail(ColorRejection(colors[bad.value]));
      }
      r := SetArguments(ColorsPayload(colors), response);
    }

    method SetEffect(effect: int, response: Posted) returns (r: Outcome)
      modifies this`sent, this`logLines
      ensures EffectCommand(effect).Err? ==>
        r == Fail(EffectCommand(effect).error) && sent == old(sent) && logLines == old(logLines)
      ensures EffectCommand(effect).Ok? ==>
        r == PostOutcome(jsonUrl, EffectCommand(effect).value, response)
        && sent == old(sent) + [EffectCommand(effect).value]
        && logLines == old(logLines) + PostLog(jsonUrl, EffectCommand(effect).value, response, log)
    {
      r := Submit(EffectCommand(effect), response);
    }

    method SetEffectSpeed(speed: int, response: Posted) returns (r: Outcome)
      modifies this`sent, this`logLines
      ensures EffectSpeedCommand(speed).Err? ==>
        r == Fail(EffectSpeedCommand(speed).error) && sent == old(sent) && logLines == old(logLines)
      ensures EffectSpeedCommand(speed).Ok? ==>
        r == PostOutcome(jsonUrl, EffectSpeedCommand(speed).value, response)
        && sent == old(sent) + [EffectSpeedCommand(speed).value]
        && logLines == old(logLines) + PostLog(jsonUrl, EffectSpeedCommand(speed).value, response, log)
    {
      r := Submit(EffectSpeedCommand(speed), response);
    }

    method SetEffectIntensity(intensity: int, response: Posted) returns (r: Outcome)
      modifies this`sent, this`logLines
      ensures EffectIntensityCommand(intensity).Err? ==>
        r == Fail(EffectIntensityCommand(intensity).error) && sent == old(sent) && logLines == old(logLines)
      ensures EffectIntensityCommand(intensity).Ok? ==>
        r == PostOutcome(jsonUrl, EffectIntensityCommand(intensity).value, response)
        && sent == old(sent) + [EffectIntensityCommand(intensity).value]
        && logLines == old(logLines) + PostLog(jsonUrl, EffectIntensityCommand(intensity).value, response, log)
    {
      r := Submit(EffectIntensityCommand(intensity), response);
    }
  }
}
