/**
 * One iteration of the legacy controller's `hour_marker` loop, as a step
 * function over what the iteration observes: the wall-clock hour and minute
 * and the device's status text. The clock and the sleeps are not modelled;
 * the hour last marked is the only state carried from one iteration to the
 * next.
 */
module HourMarker {
  import opened Text

  /** Present in the status text exactly when the device is switched off. */
  const OffMarker := "<ac>0</ac>"

  /** What one iteration observes. */
  datatype Tick = Tick(hour: int, minute: int, status: string)

  /** A call the marking script makes: `send_arguments(*args)` or `set_preset(preset)`. */
  datatype Call = Send(args: seq<string>) | Preset(preset: int)

  /** How many flashes mark the hour: `hour % 12 - 1`, or 12 when that is negative. */
  function RepeatCount(hour: int): (n: nat)
    ensures 0 <= n <= 10 || n == 12
    ensures hour % 12 == 0 ==> n == 12
    ensures hour % 12 != 0 ==> n + 1 == hour % 12
  {
    var n := hour % 12 - 1;
    if n < 0 then 12 else n
  }

  /** Hours twelve apart mark alike: midnight and noon give 12 flashes, 1 and 13 give none. */
  lemma RepeatCountTwelveHourClock(hour: int)
    ensures RepeatCount(hour) == RepeatCount(hour + 12)
    ensures RepeatCount(0) == RepeatCount(12) == 12
    ensures RepeatCount(1) == RepeatCount(13) == 0
  {
    assert (hour + 12) % 12 == hour % 12;
  }

  /** The script opens with `PS=255` and preset 1, ... */
  const Opening: seq<Call> := [Send(["PS=255"]), Preset(1)]
  /** ... flashes by the auxiliary `A=16` followed by preset 1 again, ... */
  const Flash: seq<Call> := [Send(["A=16"]), Preset(1)]
  /** ... and closes with preset 255. */
  const Closing: seq<Call> := [Preset(255)]

  /** `count` flashes. */
  function Flashes(count: nat): seq<Call>
    decreases count
  {
    if count == 0 then [] else Flashes(count - 1) + Flash
  }

  /** The marking script of an hour. */
  function Script(hour: int): seq<Call> {
    Opening + Flashes(RepeatCount(hour)) + Closing
  }

  lemma {:induction false} FlashesShape(count: nat)
    ensures |Flashes(count)| == 2 * count
    ensures forall i :: 0 <= i < 2 * count ==>
      Flashes(count)[i] == if i % 2 == 0 then Send(["A=16"]) else Preset(1)
    decreases count
  {
    if count > 0 {
      FlashesShape(count - 1);
    }
  }

  /**
   * The script makes 3 + 2 * count calls, starts with `PS=255` and preset 1,
   * ends with preset 255, and every preset it selects is a byte, so none of
   * its `set_preset` calls can be rejected.
   */
  lemma ScriptShape(hour: int)
    ensures |Script(hour)| == 3 + 2 * RepeatCount(hour)
    ensures Script(hour)[0] == Send(["PS=255"]) && Script(hour)[1] == Preset(1)
    ensures Script(hour)[|Script(hour)| - 1] == Preset(255)
    ensures forall i :: 0 <= i < |Script(hour)| && Script(hour)[i].Preset? ==>
      0 <= Script(hour)[i].preset <= 255
  {
    var n := RepeatCount(hour);
    FlashesShape(n);
    var s := Script(hour);
    forall i | 0 <= i < |s| && s[i].Preset?
      ensures 0 <= s[i].preset <= 255
    {
      if i < 2 {
        assert s[i] == Opening[i];
      } else if i < 2 + 2 * n {
        assert s[i] == Flashes(n)[i - 2];
      } else {
        assert s[i] == Closing[i - 2 - 2 * n];
      }
    }
  }

  /** The iteration marks the hour: the device is on, it is the top of the hour, and this hour is not marked yet. */
  predicate Marks(lastMarker: int, t: Tick) {
    !Contains(t.status, OffMarker) && t.minute == 0 && t.hour != lastMarker
  }

  /** One iteration: the hour last marked afterwards, and the calls it makes. */
  function Step(lastMarker: int, t: Tick): (r: (int, seq<Call>))
    ensures r.1 != [] <==> Marks(lastMarker, t)
    ensures r.0 == if r.1 != [] then t.hour else lastMarker
  {
    if Marks(lastMarker, t) then (t.hour, Script(t.hour)) else (lastMarker, [])
  }

  /** Once an hour is marked, a further iteration in the same hour does nothing. */
  lemma StepIdempotentWithinHour(lastMarker: int, t: Tick, t': Tick)
    requires t'.hour == t.hour
    requires Step(lastMarker, t).1 != []
    ensures Step(Step(lastMarker, t).0, t') == (t.hour, [])
  {
  }

  /** Successive iterations from `start`: the hour last marked, and all calls in order. */
  function Run(start: int, ticks: seq<Tick>): (int, seq<Call>)
    decreases |ticks|
  {
    if ticks == [] then (start, [])
    else
      var before := Run(start, ticks[..|ticks| - 1]);
      var step := Step(before.0, ticks[|ticks| - 1]);
      (step.0, before.1 + step.1)
  }

  /** The hours marked along a run, in order. */
  function MarkedHours(start: int, ticks: seq<Tick>): seq<int>
    decreases |ticks|
  {
    if ticks == [] then []
    else
      var last := Run(start, ticks[..|ticks| - 1]).0;
      var t := ticks[|ticks| - 1];
      MarkedHours(start, ticks[..|ticks| - 1]) + (if Marks(last, t) then [t.hour] else [])
  }

  /**
   * The hour last marked is the start hour until something is marked, and
   * then the most recently marked hour. No hour is marked twice in a row, and
   * the first mark is not in the start hour.
   */
  lemma {:induction false} MarkedHoursAlternate(start: int, ticks: seq<Tick>)
    ensures var m := MarkedHours(start, ticks);
      && Run(start, ticks).0 == (if m == [] then start else m[|m| - 1])
      && (m != [] ==> m[0] != start)
      && forall i :: 0 <= i < |m| - 1 ==> m[i] != m[i + 1]
    decreases |ticks|
  {
    if ticks != [] {
      MarkedHoursAlternate(start, ticks[..|ticks| - 1]);
    }
  }

  /** While the hour stays the same, at most one iteration marks it, and none in the start hour. */
  lemma {:induction false} AtMostOncePerHour(start: int, ticks: seq<Tick>, hour: int)
    requires forall i :: 0 <= i < |ticks| ==> ticks[i].hour == hour
    ensures |MarkedHours(start, ticks)| <= 1
    ensures forall k :: 0 <= k < |MarkedHours(start, ticks)| ==> MarkedHours(start, ticks)[k] == hour
    ensures hour == start ==> MarkedHours(start, ticks) == []
    decreases |ticks|
  {
    if ticks != [] {
      var init := ticks[..|ticks| - 1];
      AtMostOncePerHour(start, init, hour);
      MarkedHoursAlternate(start, init);
    }
  }
}
