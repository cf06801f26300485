/**
 * The legacy query-dialect controller (WLedController/WLedController.py):
 * each command becomes `key=value` tokens joined by "&" after the
 * `<device>/win` endpoint, sent with one PUT.
 *
 * Whether a PUT goes through is a parameter (`ok`); the status GET yields the
 * status text, or `None` when it fails.
 */
module LegacyDialect {
  import opened Text
  import opened Errors
  import opened Colors
  import opened HourMarker

  /** The statement `send_arguments` PUTs: the endpoint, "&", then the tokens joined by "&". */
  function Statement(apiUrl: string, args: seq<string>): string {
    apiUrl + "&" + Join("&", args)
  }

  /** With at least one token, every token follows the endpoint after its own "&". */
  lemma StatementIsPrefixed(apiUrl: string, args: seq<string>)
    requires |args| >= 1
    ensures Statement(apiUrl, args) == apiUrl + Prefixed("&", args)
  {
    JoinIsFirstThenPrefixed("&", args);
    assert Prefixed("&", args) == "&" + args[0] + Prefixed("&", args[1..]);
  }

  /** Switching on sends exactly `<endpoint>&T=1`. */
  lemma ActivateStatement(ipAddress: string)
    ensures Statement("http://" + ipAddress + "/win", ["T=1"]) == "http://" + ipAddress + "/win&T=1"
  {
  }

  /** `f"KEY={value}"`: the literal lead, "=" included, then the number. */
  function Token(lead: string, value: int): string {
    lead + IntToString(value)
  }

  /** The number a token carries is read back from after its lead. */
  lemma TokenNamesValue(lead: string, value: int)
    ensures Token(lead, value)[..|lead|] == lead
    ensures ParseInt(Token(lead, value)[|lead|..]) == Some(value)
  {
    assert Token(lead, value)[|lead|..] == IntToString(value);
    IntToStringRoundTrip(value);
  }

  /** A statement with one token ends with that token, right after the endpoint and "&". */
  lemma StatementNamesToken(apiUrl: string, token: string)
    ensures Statement(apiUrl, [token])[..|apiUrl|] == apiUrl
    ensures Statement(apiUrl, [token])[|apiUrl| + 1..] == token
  {
  }

  /** One token for `value` after `lead` when it lies in [lo, hi], else the rejection. */
  function BoundedArgs(lead: string, value: int, lo: int, hi: int, rejection: Error): (r: Result<seq<string>>)
    ensures r.Ok? <==> lo <= value <= hi
    ensures r.Err? ==> r.error == rejection
    ensures r.Ok? ==> r.value == [lead + IntToString(value)]
  {
    if value < lo || value > hi then Err(rejection) else Ok([Token(lead, value)])
  }

  function PresetArgs(preset: int): (r: Result<seq<string>>)
    ensures r.Ok? <==> 0 <= preset <= 255
    ensures r.Err? ==> r.error == ValueOutOfBounds(Int(preset), Int(0), Int(255))
    ensures r.Ok? ==> r.value == ["PL=" + IntToString(preset)]
  {
    BoundedArgs("PL=", preset, 0, 255, ValueOutOfBounds(Int(preset)))
  }

  /** Effects 0..101, the bound the rejection reports as well. */
  function EffectArgs(effect: int): (r: Result<seq<string>>)
    ensures r.Ok? <==> 0 <= effect <= 101
    ensures r.Err? ==> r.error == ValueOutOfBounds(Int(effect), Int(0), Int(101))
    ensures r.Ok? ==> r.value == ["FX=" + IntToString(effect)]
  {
    BoundedArgs("FX=", effect, 0, 101, ValueOutOfBounds(Int(effect), stop := Int(101)))
  }

  function EffectSpeedArgs(speed: int): (r: Result<seq<string>>)
    ensures r.Ok? <==> 0 <= speed <= 255
    ensures r.Err? ==> r.error == ValueOutOfBounds(Int(speed), Int(0), Int(255))
    ensures r.Ok? ==> r.value == ["SX=" + IntToString(speed)]
  {
    BoundedArgs("SX=", speed, 0, 255, ValueOutOfBounds(Int(speed)))
  }

  function EffectIntensityArgs(intensity: int): (r: Result<seq<string>>)
    ensures r.Ok? <==> 0 <= intensity <= 255
    ensures r.Err? ==> r.error == ValueOutOfBounds(Int(intensity), Int(0), Int(255))
    ensures r.Ok? ==> r.value == ["IX=" + IntToString(intensity)]
  {
    BoundedArgs("IX=", intensity, 0, 255, ValueOutOfBounds(Int(intensity)))
  }

  function PaletteArgs(palette: int): (r: Result<seq<string>>)
    ensures r.Ok? <==> 0 <= palette <= 255
    ensures r.Err? ==> r.error == ValueOutOfBounds(Int(palette), Int(0), Int(255))
    ensures r.Ok? ==> r.value == ["FP=" + IntToString(palette)]
  {
    BoundedArgs("FP=", palette, 0, 255, ValueOutOfBounds(Int(palette)))
  }

  /** A colour is sent as three tokens, red, green, blue, once every channel is a byte. */
  function ColorArgs(color: Color): (r: Result<seq<string>>)
    ensures r.Ok? <==> 0 <= color.red <= 255 && 0 <= color.green <= 255 && 0 <= color.blue <= 255
    ensures r.Err? ==> r.error == ValueOutOfBounds(IntTuple(Channels(color)), IntTuple([0, 0, 0]), IntTuple([255, 255, 255]))
    ensures r.Ok? ==> r.value == ["R=" + IntToString(color.red), "G=" + IntToString(color.green), "B=" + IntToString(color.blue)]
  {
    if Min3(color) < 0 || Max3(color) > 255 then
      Err(ValueOutOfBounds(IntTuple(Channels(color)), IntTuple([0, 0, 0]), IntTuple([255, 255, 255])))
    else
      Ok([Token("R=", color.red), Token("G=", color.green), Token("B=", color.blue)])
  }

  /** Python's truth value of the optional `timer` argument: `None` and 0 are false. */
  predicate Truthy(timer: Option<int>) {
    timer.Some? && timer.value != 0
  }

  /**
   * A false `timer` disables the nightlight and sends the target brightness
   * without checking it; otherwise both values must be bytes, and a failure
   * reports `timer` alone.
   */
  function TimerArgs(targetBrightness: int, timer: Option<int>): (r: Result<seq<string>>)
    ensures !Truthy(timer) ==> r == Ok(["ND", "NT=" + IntToString(targetBrightness)])
    ensures Truthy(timer) ==>
      && (r.Ok? <==> 0 <= targetBrightness <= 255 && 0 <= timer.value <= 255)
      && (r.Err? ==> r.error == ValueOutOfBounds(Int(timer.value), Int(0), Int(255)))
      && (r.Ok? ==> r.value == ["NL=" + IntToString(timer.value), "NT=" + IntToString(targetBrightness)])
  {
    if Truthy(timer)
      && ((if targetBrightness <= timer.value then targetBrightness else timer.value) < 0
        || (if targetBrightness >= timer.value then targetBrightness else timer.value) > 255)
    then
      Err(ValueOutOfBounds(Int(timer.value)))
    else if !Truthy(timer) then
      Ok(["ND", Token("NT=", targetBrightness)])
    else
      Ok([Token("NL=", timer.value), Token("NT=", targetBrightness)])
  }

  /** The nightlight target brightness goes out unchecked when the timer is off. */
  lemma TimerOffSkipsBrightnessCheck(targetBrightness: int)
    requires targetBrightness < 0 || targetBrightness > 255
    ensures TimerArgs(targetBrightness, None).Ok? && TimerArgs(targetBrightness, Some(0)).Ok?
    ensures TimerArgs(targetBrightness, Some(1)).Err?
  {
  }

  /** The tokens a marking-script call sends; presets are sent as `PL=`. */
  function CallArgs(c: Call): seq<string> {
    match c
    case Send(args) => args
    case Preset(p) => [Token("PL=", p)]
  }

  /** The statements a sequence of calls PUTs, in order. */
  function Statements(apiUrl: string, calls: seq<Call>): (r: seq<string>)
    ensures |r| == |calls|
    decreases |calls|
  {
    if calls == [] then []
    else Statements(apiUrl, calls[..|calls| - 1]) + [Statement(apiUrl, CallArgs(calls[|calls| - 1]))]
  }

  lemma {:induction false} StatementsAppend(apiUrl: string, xs: seq<Call>, ys: seq<Call>)
    ensures Statements(apiUrl, xs + ys) == Statements(apiUrl, xs) + Statements(apiUrl, ys)
    decreases |ys|
  {
    if ys == [] {
      assert xs + ys == xs;
    } else {
      var init := ys[..|ys| - 1];
      assert (xs + ys)[..|xs + ys| - 1] == xs + init;
      StatementsAppend(apiUrl, xs, init);
    }
  }

  lemma AppendAssoc<T>(a: seq<T>, b: seq<T>, c: seq<T>)
    ensures a + b + c == a + (b + c)
  {
  }

  lemma StatementsSnoc(apiUrl: string, calls: seq<Call>, c: Call)
    ensures Statements(apiUrl, calls + [c]) == Statements(apiUrl, calls) + [Statement(apiUrl, CallArgs(c))]
  {
    assert (calls + [c])[..|calls|] == calls;
  }

  /** One more flash PUTs its two statements after those of the script so far. */
  lemma ScriptGrows(apiUrl: string, i: nat)
    ensures Statements(apiUrl, Opening + Flashes(i + 1)) == Statements(apiUrl, Opening + Flashes(i)) + Statements(apiUrl, Flash)
  {
    assert Opening + Flashes(i + 1) == (Opening + Flashes(i)) + Flash;
    StatementsAppend(apiUrl, Opening + Flashes(i), Flash);
  }

  /** The script's statements end with the one selecting preset 255. */
  lemma ScriptCloses(apiUrl: string, hour: int)
    ensures Statements(apiUrl, Script(hour))
      == Statements(apiUrl, Opening + Flashes(RepeatCount(hour))) + [Statement(apiUrl, CallArgs(Preset(255)))]
  {
    StatementsSnoc(apiUrl, Opening + Flashes(RepeatCount(hour)), Preset(255));
  }

  const HourMarked := "hour marked"

  /** What one iteration prints: the hour-marked line and, when logging, every statement. */
  function StepLines(apiUrl: string, log: bool, lastMarker: int, t: Tick): seq<string> {
    var calls := Step(lastMarker, t).1;
    if calls == [] then [] else [HourMarked] + (if log then Statements(apiUrl, calls) else [])
  }

  /** What a run of iterations prints, in order. */
  function RunLines(apiUrl: string, log: bool, start: int, ticks: seq<Tick>): seq<string>
    decreases |ticks|
  {
    if ticks == [] then []
    else
      var init := ticks[..|ticks| - 1];
      RunLines(apiUrl, log, start, init) + StepLines(apiUrl, log, Run(start, init).0, ticks[|ticks| - 1])
  }

  /** One more iteration extends the run by its step. */
  lemma RunSnoc(apiUrl: string, log: bool, start: int, ticks: seq<Tick>, t: Tick)
    ensures Run(start, ticks + [t]) == (Step(Run(start, ticks).0, t).0, Run(start, ticks).1 + Step(Run(start, ticks).0, t).1)
    ensures RunLines(apiUrl, log, start, ticks + [t])
      == RunLines(apiUrl, log, start, ticks) + StepLines(apiUrl, log, Run(start, ticks).0, t)
  {
    assert (ticks + [t])[..|ticks|] == ticks;
  }

  /** After any earlier output, the trace of a run one iteration longer is the trace so far, then the step's. */
  lemma RunExtends(apiUrl: string, log: bool, start: int, ticks: seq<Tick>, t: Tick, s0: seq<string>, p0: seq<string>)
    ensures Run(start, ticks + [t]).0 == Step(Run(start, ticks).0, t).0
    ensures s0 + Statements(apiUrl, Run(start, ticks + [t]).1)
      == s0 + Statements(apiUrl, Run(start, ticks).1) + Statements(apiUrl, Step(Run(start, ticks).0, t).1)
    ensures p0 + RunLines(apiUrl, log, start, ticks + [t])
      == p0 + RunLines(apiUrl, log, start, ticks) + StepLines(apiUrl, log, Run(start, ticks).0, t)
  {
    var before := Run(start, ticks);
    var step := Step(before.0, t);
    RunSnoc(apiUrl, log, start, ticks, t);
    StatementsAppend(apiUrl, before.1, step.1);
    AppendAssoc(s0, Statements(apiUrl, before.1), Statements(apiUrl, step.1));
    AppendAssoc(p0, RunLines(apiUrl, log, start, ticks), StepLines(apiUrl, log, before.0, t));
  }

  /** What one iteration of `hour_marker` observes; `status` is `None` when the GET fails. */
  datatype Observation = Observation(hour: int, minute: int, status: Option<string>)

  /** How many observations the loop gets through before a GET fails. */
  function Completed(obs: seq<Observation>): (k: nat)
    ensures k <= |obs|
    ensures forall j :: 0 <= j < k ==> obs[j].status.Some?
    ensures k < |obs| ==> obs[k].status.None?
    decreases |obs|
  {
    if obs == [] || obs[0].status.None? then 0 else 1 + Completed(obs[1..])
  }

  function Ticks(obs: seq<Observation>): (ticks: seq<Tick>)
    requires forall j :: 0 <= j < |obs| ==> obs[j].status.Some?
    ensures |ticks| == |obs|
  {
    seq(|obs|, j requires 0 <= j < |obs| && obs[j].status.Some? =>
      Tick(obs[j].hour, obs[j].minute, obs[j].status.value))
  }

  /** One more completed observation adds its tick. */
  lemma TicksSnoc(obs: seq<Observation>, i: nat)
    requires i < Completed(obs)
    ensures Ticks(obs[..i + 1]) == Ticks(obs[..i]) + [Tick(obs[i].hour, obs[i].minute, obs[i].status.value)]
  {
  }

  /** What the controller was created with, or why it could not be. */
  datatype Connection = Connected(controller: Controller) | Unreachable(error: Error)

  class Controller {
    const apiUrl: string
    var log: bool
    /** The statements PUT, in order. */
    ghost var sent: seq<string>
    /** The lines printed, without their timestamps. */
    ghost var printed: seq<string>

    constructor (ipAddress: string)
      ensures apiUrl == "http://" + ipAddress + "/win"
      ensures log && sent == [] && printed == []
    {
      apiUrl := "http://" + ipAddress + "/win";
      log := true;
      sent := [];
      printed := [];
    }

    /** Construction probes the status; a failing probe means no controller at all. */
    static method Connect(ipAddress: string, probe: Option<string>) returns (r: Connection)
      ensures r.Connected? <==> probe.Some?
      ensures r.Unreachable? ==> r.error == UnreachableAddress(ipAddress)
      ensures r.Connected? ==>
        && fresh(r.controller) && r.controller.log
        && r.controller.apiUrl == "http://" + ipAddress + "/win"
        && r.controller.sent == [] && r.controller.printed == []
    {
      var c := new Controller(ipAddress);
      if c.GetStatus(probe).Err? {
        return Unreachable(UnreachableAddress(ipAddress));
      }
      return Connected(c);
    }

    method ActivateLog()
      modifies this`log
      ensures log && sent == old(sent) && printed == old(printed)
    {
      log := true;
    }

    method DeactivateLog()
      modifies this`log
      ensures !log && sent == old(sent) && printed == old(printed)
    {
      log := false;
    }

    /** The status text the endpoint returns. */
    function GetStatus(response: Option<string>): (r: Result<string>)
      ensures r.Ok? <==> response.Some?
      ensures r.Ok? ==> r.value == response.value
      ensures r.Err? ==> r.error == RequestFailed(apiUrl)
    {
      match response
      case Some(text) => Ok(text)
      case None => Err(RequestFailed(apiUrl))
    }

    /** PUT the statement; it is printed only when the PUT went through and logging is on. */
    method SendArguments(args: seq<string>, ok: bool) returns (r: Outcome)
      modifies this`sent, this`printed
      ensures sent == old(sent) + [Statement(apiUrl, args)]
      ensures printed == old(printed) + (if ok && log then [Statement(apiUrl, args)] else [])
      ensures r == if ok then Pass else Fail(NotExecuted(Statement(apiUrl, args)))
    {
      var statement := apiUrl + "&" + Join("&", args);
      sent := sent + [statement];
      if !ok {
        return Fail(NotExecuted(statement));
      }
      if log {
        printed := printed + [statement];
      }
      return Pass;
    }

    /** Send the tokens of a checked command; a rejected command raises and sends nothing. */
    method Submit(command: Result<seq<string>>, ok: bool) returns (r: Outcome)
      modifies this`sent, this`printed
      ensures command.Err? ==> r == Fail(command.error) && sent == old(sent) && printed == old(printed)
      ensures command.Ok? ==>
        && r == (if ok then Pass else Fail(NotExecuted(Statement(apiUrl, command.value))))
        && sent == old(sent) + [Statement(apiUrl, command.value)]
        && printed == old(printed) + (if ok && log then [Statement(apiUrl, command.value)] else [])
    {
      if command.Err? {
        return Fail(command.error);
      }
      r := SendArguments(command.value, ok);
    }

    method Activate(ok: bool) returns (r: Outcome)
      modifies this`sent, this`printed
      ensures sent == old(sent) + [Statement(apiUrl, ["T=1"])]
      ensures printed == old(printed) + (if ok && log then [Statement(apiUrl, ["T=1"])] else [])
      ensures r == if ok then Pass else Fail(NotExecuted(Statement(apiUrl, ["T=1"])))
    {
      r := SendArguments(["T=1"], ok);
    }

    method Deactivate(ok: bool) returns (r: Outcome)
      modifies this`sent, this`printed
      ensures sent == old(sent) + [Statement(apiUrl, ["T=0"])]
      ensures printed == old(printed) + (if ok && log then [Statement(apiUrl, ["T=0"])] else [])
      ensures r == if ok then Pass else Fail(NotExecuted(Statement(apiUrl, ["T=0"])))
    {
      r := SendArguments(["T=0"], ok);
    }

    /** Off, then on again; a failing first PUT raises before the second is made. */
    method StopTimer(firstOk: bool, secondOk: bool) returns (r: Outcome)
      modifies this`sent, this`printed
      ensures !firstOk ==> sent == old(sent) + [Statement(apiUrl, ["T=0"])] && r == Fail(NotExecuted(Statement(apiUrl, ["T=0"])))
      ensures firstOk ==>
        && sent == old(sent) + [Statement(apiUrl, ["T=0"]), Statement(apiUrl, ["T=1"])]
        && r == (if secondOk then Pass else Fail(NotExecuted(Statement(apiUrl, ["T=1"]))))
      ensures printed == old(printed)
        + (if firstOk && log then [Statement(apiUrl, ["T=0"])] else [])
        + (if firstOk && secondOk && log then [Statement(apiUrl, ["T=1"])] else [])
    {
      r := Deactivate(firstOk);
      if r.Fail? {
        return;
      }
      r := Activate(secondOk);
    }

    method SetPreset(preset: int, ok: bool) returns (r: Outcome)
      modifies this`sent, this`printed
      ensures PresetArgs(preset).Err? ==>
        r == Fail(PresetArgs(preset).error) && sent == old(sent) && printed == old(printed)
      ensures PresetArgs(preset).Ok? ==>
        && r == (if ok then Pass else Fail(NotExecuted(Statement(apiUrl, PresetArgs(preset).value))))
        && sent == old(sent) + [Statement(apiUrl, PresetArgs(preset).value)]
        && printed == old(printed) + (if ok && log then [Statement(apiUrl, PresetArgs(preset).value)] else [])
    {
      r := Submit(PresetArgs(preset), ok);
    }

    method SetColor(color: Color, ok: bool) returns (r: Outcome)
      modifies this`sent, this`printed
      ensures ColorArgs(color).Err? ==>
        r == Fail(ColorArgs(color).error) && sent == old(sent) && printed == old(printed)
      ensures ColorArgs(color).Ok? ==>
        && r == (if ok then Pass else Fail(NotExecuted(Statement(apiUrl, ColorArgs(color).value))))
        && sent == old(sent) + [Statement(apiUrl, ColorArgs(color).value)]
        && printed == old(printed) + (if ok && log then [Statement(apiUrl, ColorArgs(color).value)] else [])
    {
      r := Submit(ColorArgs(color), ok);
    }

    method SetEffect(effect: int, ok: bool) returns (r: Outcome)
      modifies this`sent, this`printed
      ensures EffectArgs(effect).Err? ==>
        r == Fail(EffectArgs(effect).error) && sent == old(sent) && printed == old(printed)
      ensures EffectArgs(effect).Ok? ==>
        && r == (if ok then Pass else Fail(NotExecuted(Statement(apiUrl, EffectArgs(effect).value))))
        && sent == old(sent) + [Statement(apiUrl, EffectArgs(effect).value)]
        && printed == old(printed) + (if ok && log then [Statement(apiUrl, EffectArgs(effect).value)] else [])
    {
      r := Submit(EffectArgs(effect), ok);
    }

    method SetEffectSpeed(speed: int, ok: bool) returns (r: Outcome)
      modifies this`sent, this`printed
      ensures EffectSpeedArgs(speed).Err? ==>
        r == Fail(EffectSpeedArgs(speed).error) && sent == old(sent) && printed == old(printed)
      ensures EffectSpeedArgs(speed).Ok? ==>
        && r == (if ok then Pass else Fail(NotExecuted(Statement(apiUrl, EffectSpeedArgs(speed).value))))
        && sent == old(sent) + [Statement(apiUrl, EffectSpeedArgs(speed).value)]
        && printed == old(printed) + (if ok && log then [Statement(apiUrl, EffectSpeedArgs(speed).value)] else [])
    {
      r := Submit(EffectSpeedArgs(speed), ok);
    }

    method SetEffectIntensity(intensity: int, ok: bool) returns (r: Outcome)
      modifies this`sent, this`printed
      ensures EffectIntensityArgs(intensity).Err? ==>
        r == Fail(EffectIntensityArgs(intensity).error) && sent == old(sent) && printed == old(printed)
      ensures EffectIntensityArgs(intensity).Ok? ==>
        && r == (if ok then Pass else Fail(NotExecuted(Statement(apiUrl, EffectIntensityArgs(intensity).value))))
        && sent == old(sent) + [Statement(apiUrl, EffectIntensityArgs(intensity).value)]
        && printed == old(printed) + (if ok && log then [Statement(apiUrl, EffectIntensityArgs(intensity).value)] else [])
    {
      r := Submit(EffectIntensityArgs(intensity), ok);
    }

    method SetPalette(palette: int, ok: bool) returns (r: Outcome)
      modifies this`sent, this`printed
      ensures PaletteArgs(palette).Err? ==>
        r == Fail(PaletteArgs(palette).error) && sent == old(sent) && printed == old(printed)
      ensures PaletteArgs(palette).Ok? ==>
        && r == (if ok then Pass else Fail(NotExecuted(Statement(apiUrl, PaletteArgs(palette).value))))
        && sent == old(sent) + [Statement(apiUrl, PaletteArgs(palette).value)]
        && printed == old(printed) + (if ok && log then [Statement(apiUrl, PaletteArgs(palette).value)] else [])
    {
      r := Submit(PaletteArgs(palette), ok);
    }

    method SetTimer(targetBrightness: int, timer: Option<int>, ok: bool) returns (r: Outcome)
      modifies this`sent, this`printed
      ensures TimerArgs(targetBrightness, timer).Err? ==>
        r == Fail(TimerArgs(targetBrightness, timer).error) && sent == old(sent) && printed == old(printed)
      ensures TimerArgs(targetBrightness, timer).Ok? ==>
        && r == (if ok then Pass else Fail(NotExecuted(Statement(apiUrl, TimerArgs(targetBrightness, timer).value))))
        && sent == old(sent) + [Statement(apiUrl, TimerArgs(targetBrightness, timer).value)]
        && printed == old(printed)
          + (if ok && log then [Statement(apiUrl, TimerArgs(targetBrightness, timer).value)] else [])
    {
      r := Submit(TimerArgs(targetBrightness, timer), ok);
    }

    /** One call of the marking script, its PUT going through. */
    method Perform(c: Call)
      requires c.Preset? ==> 0 <= c.preset <= 255
      modifies this`sent, this`printed
      ensures sent == old(sent) + [Statement(apiUrl, CallArgs(c))]
      ensures printed == old(printed) + (if log then [Statement(apiUrl, CallArgs(c))] else [])
    {
      match c
      case Send(args) =>
        var _ := SendArguments(args, true);
      case Preset(p) =>
        var _ := SetPreset(p, true);
    }

    /** Two calls of the marking script in order, their PUTs going through. */
    method PerformTwo(c: Call, d: Call)
      requires c.Preset? ==> 0 <= c.preset <= 255
      requires d.Preset? ==> 0 <= d.preset <= 255
      modifies this`sent, this`printed
      ensures sent == old(sent) + Statements(apiUrl, [c, d])
      ensures printed == old(printed) + (if log then Statements(apiUrl, [c, d]) else [])
    {
      Perform(c);
      Perform(d);
      StatementsSnoc(apiUrl, [c], d);
      StatementsSnoc(apiUrl, [], c);
      assert [c] + [d] == [c, d] && [] + [c] == [c];
      assert Statements(apiUrl, [c, d]) == [Statement(apiUrl, CallArgs(c)), Statement(apiUrl, CallArgs(d))];
      AppendAssoc(old(sent), [Statement(apiUrl, CallArgs(c))], [Statement(apiUrl, CallArgs(d))]);
      AppendAssoc(old(printed), [Statement(apiUrl, CallArgs(c))], [Statement(apiUrl, CallArgs(d))]);
    }

    /** The closing preset 255, after the opening and the flashes of the script of `hour` wrote `s0` and `p0` forward. */
    method Close(hour: int, ghost s0: seq<string>, ghost p0: seq<string>)
      requires sent == s0 + Statements(apiUrl, Opening + Flashes(RepeatCount(hour)))
      requires log ==> printed == p0 + Statements(apiUrl, Opening + Flashes(RepeatCount(hour)))
      requires !log ==> printed == p0
      modifies this`sent, this`printed
      ensures sent == s0 + Statements(apiUrl, Script(hour))
      ensures printed == p0 + (if log then Statements(apiUrl, Script(hour)) else [])
    {
      Perform(Preset(255));
      ScriptCloses(apiUrl, hour);
      ghost var last := [Statement(apiUrl, CallArgs(Preset(255)))];
      AppendAssoc(s0, Statements(apiUrl, Opening + Flashes(RepeatCount(hour))), last);
      AppendAssoc(p0, Statements(apiUrl, Opening + Flashes(RepeatCount(hour))), last);
    }

    /** The opening pair of the marking script, before any flash. */
    method Open()
      modifies this`sent, this`printed
      ensures sent == old(sent) + Statements(apiUrl, Opening + Flashes(0))
      ensures log ==> printed == old(printed) + Statements(apiUrl, Opening + Flashes(0))
      ensures !log ==> printed == old(printed)
    {
      PerformTwo(Send(["PS=255"]), Preset(1));
      assert Opening + Flashes(0) == Opening;
    }

    /** One pass of the flashing loop: the flash pair after `i` earlier flashes. */
    method FlashOnce(i: nat, ghost s0: seq<string>, ghost p0: seq<string>)
      requires sent == s0 + Statements(apiUrl, Opening + Flashes(i))
      requires log ==> printed == p0 + Statements(apiUrl, Opening + Flashes(i))
      requires !log ==> printed == p0
      modifies this`sent, this`printed
      ensures sent == s0 + Statements(apiUrl, Opening + Flashes(i + 1))
      ensures log ==> printed == p0 + Statements(apiUrl, Opening + Flashes(i + 1))
      ensures !log ==> printed == p0
    {
      PerformTwo(Send(["A=16"]), Preset(1));
      ScriptGrows(apiUrl, i);
      AppendAssoc(s0, Statements(apiUrl, Opening + Flashes(i)), Statements(apiUrl, Flash));
      AppendAssoc(p0, Statements(apiUrl, Opening + Flashes(i)), Statements(apiUrl, Flash));
    }

    /** The marking script of `hour`, every PUT going through. */
    method MarkHour(hour: int)
      modifies this`sent, this`printed
      ensures sent == old(sent) + Statements(apiUrl, Script(hour))
      ensures printed == old(printed) + (if log then Statements(apiUrl, Script(hour)) else [])
    {
      var count := RepeatCount(hour);
      Open();
      var i := 0;
      while i < count
        invariant 0 <= i <= count
        invariant sent == old(sent) + Statements(apiUrl, Opening + Flashes(i))
        invariant log ==> printed == old(printed) + Statements(apiUrl, Opening + Flashes(i))
        invariant !log ==> printed == old(printed)
      {
        FlashOnce(i, old(sent), old(printed));
        i := i + 1;
      }
      Close(hour, old(sent), old(printed));
    }

    /** One iteration of `hour_marker` on what it observed, every PUT going through. */
    method Iterate(lastMarker: int, t: Tick) returns (marker: int)
      modifies this`sent, this`printed
      ensures marker == Step(lastMarker, t).0
      ensures sent == old(sent) + Statements(apiUrl, Step(lastMarker, t).1)
      ensures printed == old(printed) + StepLines(apiUrl, log, lastMarker, t)
    {
      var notOff := !Contains(t.status, OffMarker);
      var unmarkedNewHour := t.minute == 0 && t.hour != lastMarker;
      marker := lastMarker;
      if notOff && unmarkedNewHour {
        assert Step(lastMarker, t) == (t.hour, Script(t.hour));
        printed := printed + [HourMarked];
        marker := t.hour;
        MarkHour(t.hour);
        AppendAssoc(old(printed), [HourMarked], if log then Statements(apiUrl, Script(t.hour)) else []);
      } else {
        assert Step(lastMarker, t) == (lastMarker, []);
      }
    }

    /** One iteration, continuing a run of `ticks` from `start` that wrote `s0` and `p0` before it began. */
    method Advance(ghost start: int, ghost ticks: seq<Tick>, lastMarker: int, t: Tick, ghost s0: seq<string>, ghost p0: seq<string>)
      returns (marker: int)
      requires lastMarker == Run(start, ticks).0
      requires sent == s0 + Statements(apiUrl, Run(start, ticks).1)
      requires printed == p0 + RunLines(apiUrl, log, start, ticks)
      modifies this`sent, this`printed
      ensures marker == Run(start, ticks + [t]).0
      ensures sent == s0 + Statements(apiUrl, Run(start, ticks + [t]).1)
      ensures printed == p0 + RunLines(apiUrl, log, start, ticks + [t])
    {
      RunExtends(apiUrl, log, start, ticks, t, s0, p0);
      marker := Iterate(lastMarker, t);
    }

    /**
     * `hour_marker` over finitely many iterations, starting at `startHour`,
     * every PUT going through. The loop ends only when a status GET fails;
     * `Pass` means it is still running after the last observation.
     */
    method HourMarker(startHour: int, obs: seq<Observation>) returns (r: Outcome, lastMarker: int)
      modifies this`sent, this`printed
      ensures r == if Completed(obs) < |obs| then Fail(RequestFailed(apiUrl)) else Pass
      ensures lastMarker == Run(startHour, Ticks(obs[..Completed(obs)])).0
      ensures sent == old(sent) + Statements(apiUrl, Run(startHour, Ticks(obs[..Completed(obs)])).1)
      ensures printed == old(printed) + RunLines(apiUrl, log, startHour, Ticks(obs[..Completed(obs)]))
    {
      lastMarker := startHour;
      ghost var ticks: seq<Tick> := [];
      var i := 0;
      while i < |obs|
        invariant 0 <= i <= Completed(obs)
        invariant ticks == Ticks(obs[..i])
        invariant lastMarker == Run(startHour, ticks).0
        invariant sent == old(sent) + Statements(apiUrl, Run(startHour, ticks).1)
        invariant printed == old(printed) + RunLines(apiUrl, log, startHour, ticks)
      {
        var status := GetStatus(obs[i].status);
        if status.Err? {
          assert Completed(obs) == i;
          assert ticks == Ticks(obs[..Completed(obs)]);
          return Fail(status.error), lastMarker;
        }
        var t := Tick(obs[i].hour, obs[i].minute, status.value);
        TicksSnoc(obs, i);
        lastMarker := Advance(startHour, ticks, lastMarker, t, old(sent), old(printed));
        ticks := ticks + [t];
        i := i + 1;
      }
      assert Completed(obs) == |obs| && obs[..|obs|] == obs;
      assert ticks == Ticks(obs[..Completed(obs)]);
      r := Pass;
    }
  }
}
