# WLED controller model

A Dafny model of the two Python client classes that drive a WLED LED
controller over HTTP, plus the exceptions they raise.

- **JSON dialect** (`WLedController.py`, module `JsonDialect`). Each setter
  checks its argument against a closed interval. It then builds a JSON-object
  text with `_build_data` and POSTs it to `http://<socket>/json/`. The first
  top-level key of the response is the status token. A token of `"error"`, or
  any failure of the POST or of its decoding, comes back as one generic error
  that names the arguments. With logging on, a parsed status token is logged as
  `"<arguments> --> <status>"`. On an `"error"` token that line is followed by
  `"major error occured with argument <arguments>"`. A failed request, or a
  response without a token, logs only the major-error line.
- **Query dialect** (`WLedController/WLedController.py`, module
  `LegacyDialect`). Each command becomes `KEY=value` tokens. They are joined
  by `&` after `http://<ip>/win&` and sent with one PUT. The statement is
  printed when logging is on and the PUT went through. A failing PUT raises
  `'<statement>' could not be executed.`
- **Hour marker** (the `hour_marker` loop of the same file, modules
  `HourMarker` and `LegacyDialect`). The device must be on (its status text
  has no `<ac>0</ac>`), it must be minute 0, and the hour must not be marked
  yet. When all three hold, the loop prints `hour marked` and plays a script:
  - `PS=255`, then preset 1;
  - `hour % 12 - 1` flashes, or 12 when that is negative; each flash is `A=16`
    followed by preset 1;
  - preset 255.
- **Exceptions** (`WLedController/exceptions.py`, module `Errors`). One
  `Error` datatype holds every exception either controller raises. `Message`
  gives the text Python builds for each, with the defaults `start=0, stop=255`
  as constructor defaults.

Module `Text` holds Python's `str(int)`, its inverse, `sep.join`, and the
substring test `in`. Module `Colors` holds the `min`/`max` channel check.
Each controller is a `class`. Its field `log` is the flag the source updates
in place. The ghost traces `sent` (what went over the wire, in order) and
`logLines`/`printed` (what was printed, without timestamps) are observations
of the model only; the source keeps no such record.

The transport is a parameter:
- a POST gives the response's top-level keys, or a failure;
- a GET gives the parsed document or the status text, or a failure;
- a PUT gives `ok`.

Two behaviours of `set_arguments` (`WLedController.py:114-128`) follow from
its code rather than from what the method appears meant to do:
- A status token of `"error"` logs two lines, the status line and then the
  major-error line.
- The `InvalidArgumentException` raised for it is caught by the method's own
  bare `except`, so callers only ever see the generic `'<arguments>' resulted
  in an Error.`

## Model

| member | source | states |
|---|---|---|
| Text.NatToString | WLedController/WLedController.py:54 | the decimal text of a natural is nonempty digits, with a leading zero only for 0 |
| Text.IntToString | WLedController/WLedController.py:54 | `str(i)`: nonempty, begins with `-` exactly for negatives, never contains a quote |
| Text.NatToStringRoundTrip | WLedController/WLedController.py:54 | reading the digits back gives the natural |
| Text.IntToStringRoundTrip | WLedController/WLedController.py:54 | parsing what `str(i)` prints gives `i` back |
| Text.IntToStringInjective | WLedController/WLedController.py:54 | distinct numbers print differently |
| Text.JoinIsFirstThenPrefixed | WLedController/WLedController.py:30 | `sep.join(xs)` is the first item, then every other item after its own separator |
| Text.PrefixedAppend | WLedController/WLedController.py:30 | separator-prefixed items distribute over concatenation |
| Text.ContainsIffOccurs | WLedController/WLedController.py:105 | `pattern in text` holds exactly when the pattern occurs at some position |
| Text.Join | WLedController/WLedController.py:30 | `sep.join(xs)`, specified by `Text.JoinIsFirstThenPrefixed`; also the `", ".join` of `WLedController.py:53` |
| Text.Contains | WLedController/WLedController.py:105 | `pattern in text`, specified by `Text.ContainsIffOccurs` |
| Text.DelimitedJoin | WLedController.py:53 | a join between opening and closing text is the first item, then the rest each after the separator |
| Text.JoinThree | WLedController/exceptions.py:8 | three items joined give the first, the separator, the second, the separator, the third |
| Text.ByteMaxText | WLedController/exceptions.py:7 | `str(255)` is `255` |
| Text.UpToQuoteOf | WLedController/exceptions.py:3 | the text before the first quote of `t + "'..."` is `t` when `t` has no quote |
| Errors.Message | WLedController/exceptions.py:1-13 | each modelled exception's message starts with its class's lead text; the classes defined outside this model have none |
| Errors.QuotedAfterOf | WLedController/exceptions.py:3 | a quote-free text quoted right after a lead is read back |
| Errors.DefaultBoundsMessage | WLedController/exceptions.py:7-8 | omitting the bounds reports `(0, 255)` |
| Errors.OutOfBoundsMessageNamesValue | WLedController/exceptions.py:8 | the out-of-range message quotes the offending number, which parses back to it |
| Errors.AddressMessageNamesAddress | WLedController/exceptions.py:3 | the unreachable-address message quotes the address |
| Errors.ArgumentMessageNamesArgument | WLedController/exceptions.py:13 | the invalid-argument message quotes the argument |
| Errors.CommandFailedNamesArguments | WLedController.py:128 | the generic failure of `set_arguments` quotes the arguments (when they hold no quote), which read back from it |
| Errors.NotExecutedNamesStatement | WLedController/WLedController.py:39 | the not-executed message quotes the statement (when it holds no quote), which reads back from it |
| Errors.Show | WLedController/exceptions.py:8 | `str(value)` of the offending value and the bounds: the int case is specified by `Errors.OutOfBoundsMessageNamesValue` and `Errors.DefaultBoundsMessage`, lists by `Errors.ShowListLayout`, tuples by `Errors.ShowTupleLayout`, `Errors.ShowThreeTuple` and the colour-bound lemmas, the float by `Errors.CentiWhole`, `Errors.CentiTenths` and `Errors.CentiHundredths`; items go through `IntStrings`, each with `str` |
| Errors.ShowListLayout | WLedController.py:168 | a non-empty list renders as `[`, its first item, every other item after `, `, then `]`, as `str(color)` prints the rejected colour |
| Errors.ShowTupleLayout | WLedController/WLedController.py:58 | a tuple of two or more items renders as `(`, its first item, every other item after `, `, then `)`; the empty tuple as `()` |
| Errors.IntStringsTail | WLedController/exceptions.py:8 | the texts of all items but the first are the texts of the rest, in order |
| Errors.ShowThreeTuple | WLedController/WLedController.py:58 | a colour tuple renders as `(r, g, b)` |
| Errors.ColorLowBoundShown | WLedController/WLedController.py:58 | the lower colour bound reports `(0, 0, 0)` |
| Errors.ColorHighBoundShown | WLedController/WLedController.py:58 | the upper colour bound reports `(255, 255, 255)` |
| Errors.CentiWhole | WLedController.py:137-140 | a quotient with no fractional part prints as the integer followed by `.0` |
| Errors.CentiTenths | WLedController.py:137-140 | every quotient with one fractional digit prints the sign, the integer part of its magnitude, `.`, then that digit alone |
| Errors.CentiHundredths | WLedController.py:137-140 | every quotient with two fractional digits prints the sign, the integer part of its magnitude, `.`, then both digits |
| Errors.Magnitude | WLedController.py:137-140 | `abs(c)`; `Errors.CentiTenths` and `Errors.CentiHundredths` state the rendering in terms of it |
| Errors.CentiToString | WLedController.py:137-140 | `str(milliseconds / 100)`, the float a rejected transition reports, specified by `Errors.CentiWhole`, `Errors.CentiTenths` and `Errors.CentiHundredths`; `JsonDialect.TransitionCommand` puts it in the rejection |
| Colors.Min3 | WLedController/WLedController.py:57 | `min(color)`: no channel is lower, and it is one of them |
| Colors.Max3 | WLedController/WLedController.py:57 | `max(color)`: no channel is higher, and it is one of them |
| Colors.ValidColor | WLedController/WLedController.py:57 | the check passes exactly when every channel lies in [0, 255] |
| JsonDialect.ModeValue | WLedController.py:20-24 | nightlight mode codes lie in 0..3 |
| JsonDialect.ModeValueInjective | WLedController.py:20-24 | distinct modes have distinct codes |
| JsonDialect.Entry | WLedController.py:53 | one `"key": value` member; its place in the payload is stated by `JsonDialect.BuildDataLayout` and `JsonDialect.BuildDataSingle` |
| JsonDialect.BuildData | WLedController.py:52-53 | the payload is brace-delimited |
| JsonDialect.BuildDataEmpty | WLedController.py:52-53 | no pairs give `{}` |
| JsonDialect.BuildDataLayout | WLedController.py:52-53 | braces around the first member, then every other member after `, `; the members are `Entries`, one `Entry` per pair in order |
| JsonDialect.BuildDataSnoc | WLedController.py:52-53 | one more pair inserts `, ` and its member before the closing brace |
| JsonDialect.BuildDataSingle | WLedController.py:52-53 | one pair gives exactly `{"key": value}` |
| JsonDialect.SegmentPayload | WLedController.py:176 | a segment command nests one object: `{"seg": {"key": value}}` |
| JsonDialect.PayloadNamesValue | WLedController.py:134 | the number in a single-pair payload parses back to the argument |
| JsonDialect.Bounded | WLedController.py:130-134 | accepted exactly inside the bounds; the rejection otherwise; the exact payload when accepted |
| JsonDialect.SegmentBounded | WLedController.py:172-176 | the same for a command nested inside `seg` |
| JsonDialect.BrightnessCommand | WLedController.py:130-134 | accepted iff 0..255; rejection `ValueOutOfBounds(brightness)`; payload `{"bri": n}` |
| JsonDialect.TransitionCommand | WLedController.py:136-142 | accepted iff ms/100 lies in [0, 65535]; the rejection shows the float quotient with stop 65535; the payload carries its floor |
| JsonDialect.PresetCommand | WLedController.py:144-148 | accepted iff -1..250; the rejection reports `(-1, 250)`; payload `{"ps": n}` |
| JsonDialect.TimerCommand | WLedController.py:150-154 | accepted iff 0..255; payload `{"nl.dur": n}` |
| JsonDialect.TimerModeCommand | WLedController.py:156-157 | every mode is accepted; payload `{"nl.mode": code}` |
| JsonDialect.TimerBrightnessCommand | WLedController.py:159-163 | accepted iff 0..255; payload `{"nl.tbri": n}` |
| JsonDialect.EffectCommand | WLedController.py:172-176 | accepted iff 0..117, while the rejection reports `(0, 101)`; payload `{"seg": {"fx": n}}` |
| JsonDialect.EffectReportsNarrowerRange | WLedController.py:173-174 | effects 102..117 are accepted, while every rejected effect names 101 as the stop |
| JsonDialect.EffectSpeedCommand | WLedController.py:178-182 | accepted iff 0..255; payload `{"seg": {"sx": n}}` |
| JsonDialect.EffectIntensityCommand | WLedController.py:184-188 | accepted iff 0..255; payload `{"seg": {"ix": n}}` |
| JsonDialect.FirstInvalid | WLedController.py:166-168 | none exactly when every colour passes; otherwise the first colour that fails |
| JsonDialect.ColorRejection | WLedController.py:167-168 | the exception of the first failing colour: the colour as a list, with bounds `(0, 0, 0)` and `(255, 255, 255)`; `JsonDialect.ColorsCommand` states when it is raised |
| JsonDialect.ColorsCommand | WLedController.py:165-170 | accepted iff every colour passes; else the rejection of the first failing colour, as the list of its `Channels`, with tuple bounds; one payload with all colours |
| JsonDialect.ColorsPayload | WLedController.py:170 | the payload is `{"seg": {"col": [[r, g, b], ...]}}`, the colour list `ColorsText` nested under `col` inside `seg` |
| JsonDialect.ColorsTextLayout | WLedController.py:170 | `str(list(colors))` of a non-empty list is `[`, the first colour's `[r, g, b]`, every other colour after `, `, then `]` |
| JsonDialect.ColorTextsTail | WLedController.py:170 | the texts of all colours but the first are the texts of the rest, in order |
| JsonDialect.CheckColors | WLedController.py:166-168 | the scanning loop finds exactly the first failing colour |
| JsonDialect.FirstInvalidIs | WLedController.py:166-168 | a failing colour with only passing colours before it is the first invalid one |
| JsonDialect.SwitchPair | WLedController.py:93-111 | the key and value each switch method passes to `_build_data`; `JsonDialect.SwitchPayload` and `JsonDialect.SwitchPayloadInjective` state what they send |
| JsonDialect.SwitchPayload | WLedController.py:92-111 | a switch sends its one pair as an object |
| JsonDialect.TogglePayload | WLedController.py:98-99 | toggle sends `{"on": "t"}` |
| JsonDialect.SwitchPayloadInjective | WLedController.py:92-111 | the seven switches send seven different payloads |
| JsonDialect.StatusToken | WLedController.py:116 | a status token exists exactly when the response is an object with a key |
| JsonDialect.Attempt | WLedController.py:115-122 | the `try` body passes exactly on a non-`error` token; `error` raises the invalid-argument exception |
| JsonDialect.PostOutcome | WLedController.py:114-128 | `set_arguments` passes exactly on a non-`error` token; every failure is the generic error naming the arguments |
| JsonDialect.Reported | WLedController.py:119 | the `"<arguments> --> <status>"` log line; `JsonDialect.PostLog` states when it is written |
| JsonDialect.PostLog | WLedController.py:118-126 | nothing without logging; the major-error line alone when no token; status and major-error lines on `error`; the status line alone on success |
| JsonDialect.ErrorTokenFolded | WLedController.py:119-128 | an `error` token yields the generic error and two log lines |
| JsonDialect.Controller.constructor | WLedController.py:28-31 | the endpoint and JSON URLs, the logging flag, empty traces |
| JsonDialect.Controller.Connect | WLedController.py:28-36 | a controller exists exactly when the status probe succeeds, else an unreachable-socket error; its API and JSON URLs, logging flag and empty traces |
| JsonDialect.Controller.ActivateLog | WLedController.py:59-60 | logging on, nothing else changes |
| JsonDialect.Controller.DeactivateLog | WLedController.py:62-63 | logging off, nothing else changes |
| JsonDialect.SpecifierValue | WLedController.py:11-17 | the path segment of each `Specifier`; `JsonDialect.Controller.GetStatus` reports a failing GET under the URL it names |
| JsonDialect.Controller.StatusUrl | WLedController.py:79 | `json_url + specification.value`; `JsonDialect.Controller.GetStatus` reports a failing GET under it |
| JsonDialect.Controller.GetStatus | WLedController.py:78-86 | the whole document without a main key; the value under the key when present, else the invalid-main-key error; a failing GET |
| JsonDialect.Controller.GetTimer | WLedController.py:75-76 | the `rem` value inside `nl`; the invalid-main-key error without `nl`, the `TypeError` (`NotSubscriptable`) when `nl` is not an object, the `KeyError` (`KeyMissing`) without `rem`, and the failing GET |
| JsonDialect.Controller.SetArguments | WLedController.py:114-128 | the payload is sent once; the outcome is `PostOutcome`; the log grows by `PostLog` |
| JsonDialect.Controller.Submit | WLedController.py:130-134 | a rejected command raises and sends nothing; an accepted one goes through `set_arguments` |
| JsonDialect.Controller.Switch | WLedController.py:92-111 | sends the switch payload through `set_arguments` |
| JsonDialect.Controller.SetBrightness | WLedController.py:130-134 | rejection sends nothing; otherwise the brightness payload is sent |
| JsonDialect.Controller.SetTransition | WLedController.py:136-142 | rejection sends nothing; otherwise the transition payload is sent |
| JsonDialect.Controller.SetPreset | WLedController.py:144-148 | rejection sends nothing; otherwise the preset payload is sent |
| JsonDialect.Controller.SetTimer | WLedController.py:150-154 | rejection sends nothing; otherwise the nightlight-duration payload is sent |
| JsonDialect.Controller.SetTimerMode | WLedController.py:156-157 | the mode payload is sent |
| JsonDialect.Controller.SetTimerBrightness | WLedController.py:159-163 | rejection sends nothing; otherwise the target-brightness payload is sent |
| JsonDialect.Controller.SetColors | WLedController.py:165-170 | the first failing colour raises and nothing is sent; otherwise all colours go in one payload |
| JsonDialect.Controller.SetEffect | WLedController.py:172-176 | rejection sends nothing; otherwise the effect payload is sent |
| JsonDialect.Controller.SetEffectSpeed | WLedController.py:178-182 | rejection sends nothing; otherwise the speed payload is sent |
| JsonDialect.Controller.SetEffectIntensity | WLedController.py:184-188 | rejection sends nothing; otherwise the intensity payload is sent |
| LegacyDialect.Statement | WLedController/WLedController.py:30 | the statement `send_arguments` PUTs, specified by `LegacyDialect.StatementIsPrefixed` and `LegacyDialect.StatementNamesToken` |
| LegacyDialect.Token | WLedController/WLedController.py:54-84 | a `KEY=value` token, specified by `LegacyDialect.TokenNamesValue` |
| LegacyDialect.Truthy | WLedController/WLedController.py:92-95 | the truth value of `timer`; `LegacyDialect.TimerArgs` and `LegacyDialect.TimerOffSkipsBrightnessCheck` state how it selects the branch |
| LegacyDialect.StatementIsPrefixed | WLedController/WLedController.py:30 | every token follows the endpoint after its own `&` |
| LegacyDialect.ActivateStatement | WLedController/WLedController.py:41-42 | switching on sends exactly `http://<ip>/win&T=1` |
| LegacyDialect.StatementNamesToken | WLedController/WLedController.py:30 | a one-token statement is the endpoint, `&`, then the token |
| LegacyDialect.TokenNamesValue | WLedController/WLedController.py:54 | a `KEY=value` token starts with its lead, and its number parses back |
| LegacyDialect.BoundedArgs | WLedController/WLedController.py:50-54 | accepted exactly inside the bounds; the rejection otherwise; the one token when accepted |
| LegacyDialect.PresetArgs | WLedController/WLedController.py:50-54 | accepted iff 0..255; token `PL=n` |
| LegacyDialect.EffectArgs | WLedController/WLedController.py:62-66 | accepted iff 0..101, the rejection reporting stop 101; token `FX=n` |
| LegacyDialect.EffectSpeedArgs | WLedController/WLedController.py:68-72 | accepted iff 0..255; token `SX=n` |
| LegacyDialect.EffectIntensityArgs | WLedController/WLedController.py:74-78 | accepted iff 0..255; token `IX=n` |
| LegacyDialect.PaletteArgs | WLedController/WLedController.py:80-84 | accepted iff 0..255; token `FP=n` |
| LegacyDialect.ColorArgs | WLedController/WLedController.py:56-60 | accepted iff every channel is a byte; the rejection shows the colour tuple (its `Channels`, red, green, blue) and tuple bounds; tokens `R=`, `G=`, `B=` |
| LegacyDialect.TimerArgs | WLedController/WLedController.py:91-98 | a false timer sends `ND` and the unchecked target; otherwise both must be bytes, and a failure reports the timer |
| LegacyDialect.TimerOffSkipsBrightnessCheck | WLedController/WLedController.py:92-96 | an out-of-range target goes out when the timer is `None` or 0, and is rejected with timer 1 |
| LegacyDialect.CallArgs | WLedController/WLedController.py:118-127 | the tokens of one script call, `set_preset(p)` sending `PL=p` (lines 119, 124, 127); `LegacyDialect.Controller.Perform` and `LegacyDialect.Controller.MarkHour` state what they PUT |
| LegacyDialect.StepLines | WLedController/WLedController.py:108-127 | one iteration prints `hour marked` when it marks, then each statement when logging; `LegacyDialect.Controller.Iterate` states that it prints exactly these |
| LegacyDialect.RunLines | WLedController/WLedController.py:103-129 | the lines the loop prints over a run, in order; `LegacyDialect.Controller.HourMarker` states that it prints exactly these |
| LegacyDialect.Statements | WLedController/WLedController.py:118-127 | one statement per call |
| LegacyDialect.StatementsAppend | WLedController/WLedController.py:118-127 | the statements of consecutive calls concatenate |
| LegacyDialect.ScriptGrows | WLedController/WLedController.py:121-125 | one more flash adds its two statements at the end |
| LegacyDialect.ScriptCloses | WLedController/WLedController.py:127 | the script's statements end with selecting preset 255 |
| LegacyDialect.RunSnoc | WLedController/WLedController.py:103-129 | one more iteration extends the marker and the calls by its step, and the printed lines by its lines |
| LegacyDialect.RunExtends | WLedController/WLedController.py:103-129 | the traces of a run one iteration longer are the traces so far followed by the step's |
| LegacyDialect.Completed | WLedController/WLedController.py:105 | the loop gets through exactly the observations before the first failing status GET |
| LegacyDialect.Ticks | WLedController/WLedController.py:104-105 | one tick per completed observation |
| LegacyDialect.Controller.constructor | WLedController/WLedController.py:10-12 | the `/win` endpoint, logging on, empty traces |
| LegacyDialect.Controller.Connect | WLedController/WLedController.py:14-17 | a controller exists exactly when the status probe succeeds, else an unreachable-address error |
| LegacyDialect.Controller.ActivateLog | WLedController/WLedController.py:23-24 | logging on, nothing else changes |
| LegacyDialect.Controller.DeactivateLog | WLedController/WLedController.py:26-27 | logging off, nothing else changes |
| LegacyDialect.Controller.GetStatus | WLedController/WLedController.py:47-48 | the status text, or a failing GET |
| LegacyDialect.Controller.SendArguments | WLedController/WLedController.py:29-39 | the statement is PUT; it is printed only when the PUT went through with logging on; a failing PUT raises the not-executed error naming the statement |
| LegacyDialect.Controller.Submit | WLedController/WLedController.py:50-54 | a rejected command raises and sends nothing; an accepted one goes through `send_arguments` |
| LegacyDialect.Controller.Activate | WLedController/WLedController.py:41-42 | sends `T=1` |
| LegacyDialect.Controller.Deactivate | WLedController/WLedController.py:44-45 | sends `T=0` |
| LegacyDialect.Controller.StopTimer | WLedController/WLedController.py:86-89 | `T=0` then `T=1`; a failing first PUT raises before the second |
| LegacyDialect.Controller.SetPreset | WLedController/WLedController.py:50-54 | rejection sends nothing; otherwise `PL=n` is sent |
| LegacyDialect.Controller.SetColor | WLedController/WLedController.py:56-60 | rejection sends nothing; otherwise the three channel tokens go in one statement |
| LegacyDialect.Controller.SetEffect | WLedController/WLedController.py:62-66 | rejection sends nothing; otherwise `FX=n` is sent |
| LegacyDialect.Controller.SetEffectSpeed | WLedController/WLedController.py:68-72 | rejection sends nothing; otherwise `SX=n` is sent |
| LegacyDialect.Controller.SetEffectIntensity | WLedController/WLedController.py:74-78 | rejection sends nothing; otherwise `IX=n` is sent |
| LegacyDialect.Controller.SetPalette | WLedController/WLedController.py:80-84 | rejection sends nothing; otherwise `FP=n` is sent |
| LegacyDialect.Controller.SetTimer | WLedController/WLedController.py:91-98 | rejection sends nothing; otherwise the nightlight tokens go in one statement |
| LegacyDialect.Controller.Perform | WLedController/WLedController.py:118-127 | one script call PUTs its statement |
| LegacyDialect.Controller.PerformTwo | WLedController/WLedController.py:118-119 | two script calls PUT their statements in order |
| LegacyDialect.Controller.Close | WLedController/WLedController.py:127 | the closing preset completes the script's statements |
| LegacyDialect.Controller.Open | WLedController/WLedController.py:118-119 | the opening `PS=255` and preset 1 PUT the script's first statements |
| LegacyDialect.Controller.FlashOnce | WLedController/WLedController.py:121-125 | one pass of the flashing loop PUTs the next flash's two statements |
| LegacyDialect.Controller.MarkHour | WLedController/WLedController.py:114-127 | the marking loop PUTs exactly the statements of `Script(hour)` and prints them when logging |
| LegacyDialect.Controller.Iterate | WLedController/WLedController.py:104-127 | one iteration moves the marker and PUTs and prints exactly what `Step` prescribes |
| LegacyDialect.Controller.Advance | WLedController/WLedController.py:103-127 | one iteration continues the traces of the run so far |
| LegacyDialect.Controller.HourMarker | WLedController/WLedController.py:100-129 | the loop stops with a failing status GET, or is still running; its marker, PUTs and printed lines are those of `Run` over the completed observations |
| HourMarker.RepeatCount | WLedController/WLedController.py:114-116 | the flash count is 12 at hours 0 and 12 (mod 12), otherwise one less than the hour on a 12-hour clock |
| HourMarker.RepeatCountTwelveHourClock | WLedController/WLedController.py:114-116 | hours twelve apart flash alike; midnight and noon flash 12 times, 1 and 13 not at all |
| HourMarker.FlashesShape | WLedController/WLedController.py:121-125 | `count` flashes are `2 * count` calls alternating `A=16` and preset 1 |
| HourMarker.ScriptShape | WLedController/WLedController.py:118-127 | the script has `3 + 2 * count` calls, opens with `PS=255` and preset 1, closes with preset 255, and selects only byte presets |
| HourMarker.Marks | WLedController/WLedController.py:105-108 | the marking condition; `HourMarker.Step` marks exactly when it holds |
| HourMarker.Flashes | WLedController/WLedController.py:121-125 | the calls of the flashing loop, specified by `HourMarker.FlashesShape` |
| HourMarker.Script | WLedController/WLedController.py:118-127 | the calls of one marking, specified by `HourMarker.ScriptShape` |
| HourMarker.Step | WLedController/WLedController.py:104-116 | an iteration makes calls exactly when it marks, and then the marker becomes the hour |
| HourMarker.StepIdempotentWithinHour | WLedController/WLedController.py:106-112 | once an hour is marked, later iterations in the same hour do nothing |
| HourMarker.MarkedHoursAlternate | WLedController/WLedController.py:101-112 | the marker is the last marked hour, the first mark is not the start hour, and no hour is marked twice in a row |
| HourMarker.AtMostOncePerHour | WLedController/WLedController.py:101-112 | within one hour at most one iteration marks, and none in the start hour |
| HourMarker.Run | WLedController/WLedController.py:103-129 | the loop over a finite run of observations; `HourMarker.MarkedHoursAlternate`, `HourMarker.AtMostOncePerHour` and `LegacyDialect.Controller.HourMarker` state what it does |

## Left out

- HTTP itself: `requests.get`, `put` and `post` become parameters. Each is a
  response value or a failure, or `ok` for a PUT.
- JSON decoding of responses. The JSON dialect receives the decoded object,
  or its top-level keys, or a failure; invalid JSON is a failure.
- JsonDialect.StatusToken: `Posted` cannot hold a decoded value that is not an
  object. Python takes `list(value)[0]` of whatever `json.loads` gives. A
  non-empty array gives its first element, which passes unless it is the
  string `"error"`: `["ok"]` passes. A non-empty string gives its first
  character, which always passes: `"ok"` passes with status `o`. An empty
  array, object or string raises `IndexError`, and a number, boolean or null
  raises `TypeError`; both are folded into the generic error. A first key
  that is not a string cannot occur in a decoded object.
- JsonDialect.Controller.GetStatus: `Fetched` cannot hold a decoded document
  that is not an object. Without a main key Python returns any decoded value,
  so the probe of `Connect` succeeds on `[]`, `"x"` or `5`. With a main key,
  indexing a list, string or number raises `TypeError`, not the
  invalid-main-key error.
- JsonDialect.Controller.Connect: accepts exactly the object documents; a
  status document that decodes to an array, string, number, boolean or null
  also connects in Python.
- `get_version`, `get_free_heap`, `get_uptime` and `reboot`
  (`WLedController.py:66-73`, `89-90`). Each is a single GET whose text is
  converted with `int()` or whose status code is returned. The transport is
  outside this model.
- Timestamps, `datetime.now()` and every `sleep`. The hour marker receives
  each iteration's hour and minute as an observation. Printed lines are
  recorded without their timestamp prefix, and `timeout` has no effect.
- The endless `while True` of `hour_marker`. It is modelled over a finite
  sequence of observations.
- LegacyDialect.Controller.HourMarker: assumes every PUT of the marking
  script goes through. A failing PUT inside the loop would raise out of it,
  and that path is not modelled.
- LegacyDialect.Controller.Perform, LegacyDialect.Controller.PerformTwo,
  LegacyDialect.Controller.Open, LegacyDialect.Controller.FlashOnce,
  LegacyDialect.Controller.Close, LegacyDialect.Controller.MarkHour,
  LegacyDialect.Controller.Iterate, LegacyDialect.Controller.Advance: the
  same assumption; each one's PUTs all go through, so none of them raises
  the not-executed error.
- Errors.Message: `CentiToString` follows Python's float `str` only where it
  prints plain decimals. It does not cover exponent notation (magnitudes of
  1e16 and above) or binary rounding of huge inputs to `set_transition`.
- Errors.Message: the message texts of `UnreachableSocketException`,
  `InvalidMainKeyException` and `InvalidArgumentException` are unknown. Their
  `exceptions` module is imported by `WLedController.py` but is not part of
  this model, so `Message` returns `None` for them. The same holds for the
  transport failures `RequestFailed`, `KeyMissing` and `NotSubscriptable`,
  whose texts are Python's own.
- JsonDialect.ColorsCommand: colours are shown as lists, as the annotation
  `list[int, int, int]` says. A caller passing tuples would see
  `(r, g, b)` in the message and payload.
- `setup.py` is packaging only and is not part of this model.
