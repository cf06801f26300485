/**
 * The exceptions both controllers raise, as one error datatype, and the
 * messages Python builds for them (`str(exception)`).
 *
 * `ValueOutOfBounds`, `UnreachableAddress` and `ArgumentNotValid` are the
 * classes of WLedController/exceptions.py. The JSON-dialect controller also
 * raises `UnreachableSocket`, `InvalidMainKey` and `InvalidArgument`, whose
 * classes live in a module that is not part of this model, so their message
 * text is unknown. `CommandFailed` and `NotExecuted` are the plain
 * `Exception`s the two send paths raise; `RequestFailed` stands for a failing
 * GET or POST (transport, JSON decoding, or a POST response without a status
 * token, which `set_arguments` folds into `CommandFailed`), and `KeyMissing`
 * for a plain `KeyError`;
 * `NotSubscriptable` is the `TypeError` of indexing a value that is not an
 * object with a string key.
 */
module Errors {
  import opened Text

  /** A value as the exception renders it with `str(value)`. */
  datatype Shown =
    | Int(n: int)                // an int
    | Centi(hundredths: int)     // the float `hundredths / 100`
    | IntList(items: seq<int>)   // a list of ints
    | IntTuple(items: seq<int>)  // a tuple of ints

  datatype Error =
    | ValueOutOfBounds(value: Shown, start: Shown := Int(0), stop: Shown := Int(255))
    | UnreachableAddress(ipAddress: string)
    | ArgumentNotValid(argument: string)
    | UnreachableSocket(socket: string)
    | InvalidMainKey(mainKey: string)
    | InvalidArgument(arguments: string)
    | CommandFailed(arguments: string)
    | NotExecuted(statement: string)
    | RequestFailed(url: string)
    | KeyMissing(key: string)
    | NotSubscriptable(key: string)

  /** A value, or the exception raised instead of returning it. */
  datatype Result<+T> = Ok(value: T) | Err(error: Error)

  /** A call that returns nothing: it completes, or raises. */
  datatype Outcome = Pass | Fail(error: Error)

  /** `str` of each item, in order, as a list or tuple renders them. */
  function IntStrings(xs: seq<int>): seq<string> {
    seq(|xs|, i requires 0 <= i < |xs| => IntToString(xs[i]))
  }

  /** `abs(c)`. */
  function Magnitude(c: int): nat {
    if c < 0 then -c else c
  }

  /** Python's `str(c / 100)` for an int `c`: shortest decimal with at least one fractional digit. */
  function CentiToString(c: int): string {
    var a := Magnitude(c);
    var frac := a % 100;
    (if c < 0 then "-" else "") + NatToString(a / 100) + "."
      + (if frac % 10 == 0 then [Digit(frac / 10)] else [Digit(frac / 10), Digit(frac % 10)])
  }

  function Show(v: Shown): string {
    match v
    case Int(n) => IntToString(n)
    case Centi(c) => CentiToString(c)
    case IntList(xs) => "[" + Join(", ", IntStrings(xs)) + "]"
    case IntTuple(xs) =>
      if |xs| == 1 then "(" + IntToString(xs[0]) + ",)" else "(" + Join(", ", IntStrings(xs)) + ")"
  }

  /** A non-empty list renders as `[a, b, ...]`: the first item, then each other after ", ". */
  lemma ShowListLayout(xs: seq<int>)
    requires |xs| >= 1
    ensures Show(IntList(xs)) == "[" + IntToString(xs[0]) + Prefixed(", ", IntStrings(xs[1..])) + "]"
  {
    DelimitedJoin("[", ", ", IntStrings(xs), "]");
    IntStringsTail(xs);
  }

  /** A tuple of two or more items renders as `(a, b, ...)`; the empty tuple as `()`. */
  lemma ShowTupleLayout(xs: seq<int>)
    requires |xs| != 1
    ensures |xs| == 0 ==> Show(IntTuple(xs)) == "()"
    ensures |xs| >= 2 ==>
      Show(IntTuple(xs)) == "(" + IntToString(xs[0]) + Prefixed(", ", IntStrings(xs[1..])) + ")"
  {
    if |xs| >= 2 {
      DelimitedJoin("(", ", ", IntStrings(xs), ")");
      IntStringsTail(xs);
    }
  }

  /** Dropping the first item drops its text. */
  lemma IntStringsTail(xs: seq<int>)
    requires |xs| >= 1
    ensures IntStrings(xs)[1..] == IntStrings(xs[1..])
  {
    var ts, rest := IntStrings(xs), IntStrings(xs[1..]);
    assert forall i :: 0 <= i < |rest| ==> ts[1..][i] == rest[i];
  }

  /** Three channels, as a tuple: `(r, g, b)`. */
  lemma ShowThreeTuple(r: int, g: int, b: int)
    ensures Show(IntTuple([r, g, b])) == "(" + IntToString(r) + ", " + IntToString(g) + ", " + IntToString(b) + ")"
  {
    assert IntStrings([r, g, b]) == [IntToString(r), IntToString(g), IntToString(b)];
    JoinThree(", ", IntToString(r), IntToString(g), IntToString(b));
  }

  /** The lower bound a rejected colour reports: `(0, 0, 0)`. */
  lemma ColorLowBoundShown()
    ensures Show(IntTuple([0, 0, 0])) == "(0, 0, 0)"
  {
    assert IntToString(0) == "0" by { assert Digit(0) == '0'; }
    ShowThreeTuple(0, 0, 0);
    assert "(" + "0" + ", " + "0" + ", " + "0" + ")" == "(0, 0, 0)";
  }

  /** The upper bound a rejected colour reports: `(255, 255, 255)`. */
  lemma ColorHighBoundShown()
    ensures Show(IntTuple([255, 255, 255])) == "(255, 255, 255)"
  {
    ByteMaxText();
    ShowThreeTuple(255, 255, 255);
    assert "(" + "255" + ", " + "255" + ", " + "255" + ")" == "(255, 255, 255)";
  }

  /** A whole number of hundredths renders as the integer quotient followed by ".0". */
  lemma CentiWhole(c: int)
    requires c % 100 == 0
    ensures CentiToString(c) == IntToString(c / 100) + ".0"
  {
    var a := Magnitude(c);
    assert a % 100 == 0 && a / 100 == (if c < 0 then -(c / 100) else c / 100);
    assert Digit(0) == '0';
  }

  /**
   * A quotient with one fractional digit prints that digit alone: the sign,
   * the integer part of the magnitude, ".", then the tenths.
   */
  lemma CentiTenths(c: int)
    requires Magnitude(c) % 10 == 0 && Magnitude(c) % 100 != 0
    ensures CentiToString(c) ==
      (if c < 0 then "-" else "") + NatToString(Magnitude(c) / 100) + "." + [Digit(Magnitude(c) % 100 / 10)]
  {
    assert (Magnitude(c) % 100) % 10 == 0;
  }

  /**
   * A quotient with two fractional digits prints both: the sign, the integer
   * part of the magnitude, ".", then the tenths and the hundredths.
   */
  lemma CentiHundredths(c: int)
    requires Magnitude(c) % 10 != 0
    ensures CentiToString(c) ==
      (if c < 0 then "-" else "") + NatToString(Magnitude(c) / 100) + "."
        + [Digit(Magnitude(c) % 100 / 10), Digit(Magnitude(c) % 10)]
  {
    assert (Magnitude(c) % 100) % 10 == Magnitude(c) % 10;
  }

  /** The generic failure of `set_arguments` quotes the arguments. */
  lemma CommandFailedNamesArguments(a: string)
    requires '\'' !in a
    ensures QuotedAfter("'", Message(CommandFailed(a)).value) == Some(a)
  {
    QuotedAfterOf("'", a, "' resulted in an Error.");
  }

  /** The not-executed message quotes the statement. */
  lemma NotExecutedNamesStatement(s: string)
    requires '\'' !in s
    ensures QuotedAfter("'", Message(NotExecuted(s)).value) == Some(s)
  {
    QuotedAfterOf("'", s, "' could not be executed.");
  }

  const OutOfBoundsLead := "The Value '"
  const AddressLead := "The IP-Address '"
  const ArgumentLead := "The argument '"

  function RangeTail(start: Shown, stop: Shown): string {
    "' is out of the range (" + Show(start) + ", " + Show(stop) + ")."
  }

  /** The message of the exception; `None` where its class is not part of this model. */
  function Message(e: Error): (m: Option<string>)
    ensures m.None? <==> e.UnreachableSocket? || e.InvalidMainKey? || e.InvalidArgument? || e.RequestFailed? || e.KeyMissing? || e.NotSubscriptable?
    ensures e.ValueOutOfBounds? ==> OutOfBoundsLead <= m.value
    ensures e.UnreachableAddress? ==> AddressLead <= m.value
    ensures e.ArgumentNotValid? ==> ArgumentLead <= m.value
  {
    match e
    case ValueOutOfBounds(v, start, stop) =>
      Some(OutOfBoundsLead + Show(v) + RangeTail(start, stop))
    case UnreachableAddress(ip) => Some(AddressLead + ip + "' is not reachable.")
    case ArgumentNotValid(a) => Some(ArgumentLead + a + "' is not valid.")
    case CommandFailed(a) => Some("'" + a + "' resulted in an Error.")
    case NotExecuted(s) => Some("'" + s + "' could not be executed.")
    case _ => None
  }

  /** The text a message quotes right after `lead`, up to the closing `'`. */
  function QuotedAfter(lead: string, message: string): Option<string> {
    if lead <= message then UpToQuote(message[|lead|..]) else None
  }

  /** A message that quotes a quote-free `t` right after `lead` gives `t` back. */
  lemma QuotedAfterOf(lead: string, t: string, rest: string)
    requires '\'' !in t && |rest| > 0 && rest[0] == '\''
    ensures QuotedAfter(lead, lead + t + rest) == Some(t)
  {
    var m := lead + t + rest;
    assert m[|lead|..] == t + rest;
    UpToQuoteOf(t, rest);
  }

  /** Omitting the bounds reports the byte range (0, 255). */
  lemma DefaultBoundsMessage(v: Shown)
    ensures Message(ValueOutOfBounds(v)) == Some(OutOfBoundsLead + Show(v) + "' is out of the range (0, 255).")
  {
    assert Show(Int(0)) == "0" by { assert Digit(0) == '0'; }
    assert Show(Int(255)) == "255" by { ByteMaxText(); }
    assert RangeTail(Int(0), Int(255)) == "' is out of the range (0, 255).";
  }

  /** An out-of-range message names the offending number, which can be read back from it. */
  lemma OutOfBoundsMessageNamesValue(v: int, start: Shown, stop: Shown)
    ensures QuotedAfter(OutOfBoundsLead, Message(ValueOutOfBounds(Int(v), start, stop)).value) == Some(IntToString(v))
    ensures ParseInt(IntToString(v)) == Some(v)
  {
    QuotedAfterOf(OutOfBoundsLead, IntToString(v), RangeTail(start, stop));
    IntToStringRoundTrip(v);
  }

  /** The unreachable-address message names the address (when it holds no quote). */
  lemma AddressMessageNamesAddress(ip: string)
    requires '\'' !in ip
    ensures QuotedAfter(AddressLead, Message(UnreachableAddress(ip)).value) == Some(ip)
  {
    QuotedAfterOf(AddressLead, ip, "' is not reachable.");
  }

  /** The invalid-argument message names the argument (when it holds no quote). */
  lemma ArgumentMessageNamesArgument(a: string)
    requires '\'' !in a
    ensures QuotedAfter(ArgumentLead, Message(ArgumentNotValid(a)).value) == Some(a)
  {
    QuotedAfterOf(ArgumentLead, a, "' is not valid.");
  }
}
