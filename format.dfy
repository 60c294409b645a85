/** `String.prototype.format` (core.js): every `{N}` whose argument N is
    defined is replaced by that argument, booleans shown as "yes"/"no";
    every other character, and every placeholder whose argument is
    undefined, is kept as it is. */
module StringFormat {
  import opened JsValues

  /** The longest run of digits at the start of `s`. */
  function DigitRun(s: string): (d: string)
    ensures |d| <= |s| && d == s[..|d|] && AllDigits(d)
    ensures |d| < |s| ==> !IsDigit(s[|d|])
  {
    if s != [] && IsDigit(s[0]) then [s[0]] + DigitRun(s[1..]) else []
  }

  /** `arguments[digits]`: only a canonical index within range names an argument. */
  function ArgAt(args: seq<JsValue>, digits: string): JsValue
    requires AllDigits(digits)
  {
    if Canonical(digits) && DigitsValue(digits) < |args| then args[DigitsValue(digits)] else Undefined
  }

  /** The text an argument is shown as. */
  function Render(v: JsValue): string {
    if v.Bool? then (if v.b then "yes" else "no") else ToString(v)
  }

  /** The replacement for the placeholder `{digits}`. */
  function Substitute(digits: string, args: seq<JsValue>): string
    requires AllDigits(digits)
  {
    var v := ArgAt(args, digits);
    if v.Undefined? then "{" + digits + "}" else Render(v)
  }

  /** Whether `s` starts with a match of `/{(\d+)}/`: a brace, a run of
      digits, and a closing brace right after the run. */
  predicate Placeholder(s: string) {
    s != [] && s[0] == '{' && var d := DigitRun(s[1..]); |d| > 0 && |d| + 1 < |s| && s[|d| + 1] == '}'
  }

  /** The global replacement of `/{(\d+)}/g`: scanning left to right, a match
      is consumed whole, and a `{` that does not start one is kept as text. */
  function Format(s: string, args: seq<JsValue>): string
    decreases |s|
  {
    if s == [] then ""
    else
      var d := DigitRun(s[1..]);
      if Placeholder(s) then
        Substitute(d, args) + Format(s[|d| + 2..], args)
      else
        [s[0]] + Format(s[1..], args)
  }

  lemma {:induction false} DigitRunStops(d: string, rest: string)
    requires AllDigits(d)
    ensures DigitRun(d + "}" + rest) == d
  {
    if d != [] {
      assert (d + "}" + rest)[1..] == d[1..] + "}" + rest;
      DigitRunStops(d[1..], rest);
    }
  }

  /** One placeholder is replaced by its substitution and the rest is formatted on. */
  lemma FormatPlaceholder(d: string, rest: string, args: seq<JsValue>)
    requires |d| > 0 && AllDigits(d)
    ensures Format("{" + d + "}" + rest, args) == Substitute(d, args) + Format(rest, args)
  {
    var s := "{" + d + "}" + rest;
    assert s[1..] == d + "}" + rest;
    DigitRunStops(d, rest);
    assert s[|d| + 2..] == rest;
  }

  /** `{N}` with a defined argument N becomes that argument's text. */
  lemma FormatDefinedArgument(n: nat, rest: string, args: seq<JsValue>)
    requires n < |args| && !args[n].Undefined?
    ensures Format("{" + Decimal(n) + "}" + rest, args) == Render(args[n]) + Format(rest, args)
  {
    DecimalRoundTrip(n);
    FormatPlaceholder(Decimal(n), rest, args);
  }

  /** `{N}` whose argument is undefined or missing stays verbatim. */
  lemma FormatUndefinedArgument(n: nat, rest: string, args: seq<JsValue>)
    requires n >= |args| || args[n].Undefined?
    ensures Format("{" + Decimal(n) + "}" + rest, args) == "{" + Decimal(n) + "}" + Format(rest, args)
  {
    DecimalRoundTrip(n);
    FormatPlaceholder(Decimal(n), rest, args);
  }

  /** A placeholder with a leading zero never names an argument. */
  lemma FormatLeadingZero(d: string, rest: string, args: seq<JsValue>)
    requires |d| > 0 && AllDigits(d)
    ensures Format("{0" + d + "}" + rest, args) == "{0" + d + "}" + Format(rest, args)
  {
    var z := "0" + d;
    assert AllDigits(z) by {
      forall i | 0 <= i < |z| ensures IsDigit(z[i]) { if i > 0 { assert z[i] == d[i - 1]; } }
    }
    assert !Canonical(z);
    assert "{0" + d + "}" + rest == "{" + z + "}" + rest;
    FormatPlaceholder(z, rest, args);
  }

  /** Text in which no position starts a placeholder is returned unchanged,
      whatever braces it holds. */
  lemma {:induction false} FormatWithoutPlaceholders(s: string, args: seq<JsValue>)
    requires forall i :: 0 <= i < |s| ==> !Placeholder(s[i..])
    ensures Format(s, args) == s
    decreases |s|
  {
    if s != [] {
      assert !Placeholder(s[0..]) && s[0..] == s;
      assert forall i :: 0 <= i < |s[1..]| ==> !Placeholder(s[1..][i..]) by {
        forall i | 0 <= i < |s[1..]| ensures !Placeholder(s[1..][i..]) {
          assert s[1..][i..] == s[i + 1..];
        }
      }
      FormatWithoutPlaceholders(s[1..], args);
      assert s == [s[0]] + s[1..];
    }
  }

  /** A brace that does not open a placeholder (`{a}`, `{}`, an unclosed `{1`)
      is kept as text. */
  lemma BraceWithoutPlaceholderKept(args: seq<JsValue>)
    ensures Format("{a}", args) == "{a}"
    ensures Format("{}", args) == "{}"
    ensures Format("x{1", args) == "x{1"
  {
    var texts := ["{a}", "{}", "x{1"];
    forall t | t in texts
      ensures forall i :: 0 <= i < |t| ==> !Placeholder(t[i..])
    {
      forall i | 0 <= i < |t| ensures !Placeholder(t[i..]) {
        var u := t[i..];
        if u != [] && u[0] == '{' && |u| > 1 {
          assert !IsDigit(u[1]) || |u| == 2;
        }
      }
    }
    FormatWithoutPlaceholders("{a}", args);
    FormatWithoutPlaceholders("{}", args);
    FormatWithoutPlaceholders("x{1", args);
  }

  /** With no arguments a placeholder at the front stays as it is. */
  lemma PlaceholderKeptWithoutArguments(s: string)
    requires Placeholder(s)
    ensures Format(s, []) == s[..|DigitRun(s[1..])| + 2] + Format(s[|DigitRun(s[1..])| + 2..], [])
  {
    var d := DigitRun(s[1..]);
    var k := |d| + 2;
    assert Format(s, []) == Substitute(d, []) + Format(s[k..], []);
    assert ArgAt([], d) == Undefined;
    assert s[1..][..|d|] == d;
    assert s[..k] == "{" + d + "}" by {
      forall i | 0 <= i < k ensures s[..k][i] == ("{" + d + "}")[i] {
        if 0 < i < k - 1 {
          assert s[i] == s[1..][..|d|][i - 1];
        }
      }
    }
  }

  /** With no arguments every placeholder is left verbatim: the text is unchanged. */
  lemma {:induction false} FormatWithoutArguments(s: string)
    ensures Format(s, []) == s
    decreases |s|
  {
    if s != [] {
      var d := DigitRun(s[1..]);
      if Placeholder(s) {
        var k := |d| + 2;
        PlaceholderKeptWithoutArguments(s);
        FormatWithoutArguments(s[k..]);
        assert s[..k] + s[k..] == s;
      } else {
        assert Format(s, []) == [s[0]] + Format(s[1..], []);
        FormatWithoutArguments(s[1..]);
        assert s == [s[0]] + s[1..];
      }
    }
  }
}
