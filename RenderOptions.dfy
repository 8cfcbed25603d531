/** The option mini-grammars of the render command: the `-n` animation range
    and the `-r` resolution, both parsed with Python's `int()` after splitting
    at `;`, `,` or `-`, and the choice sets of `--format`, `--quality` and
    `--renderer`. */
module RenderOptions {
  import opened PyValues

  /** What an option callback hands back: nothing to override (`None` in
      Python), a parsed value, or an error that logs and calls `exit()`. */
  datatype Validated<T> = NoValue | Value(v: T) | ExitError

  /** The value of `-n`: the one-element tuple `(start,)` or the pair
      `(start, end)`. */
  datatype AnimationRange = From(start: int) | Span(start: int, end: int)

  datatype Resolution = Resolution(width: int, height: int)

  // ---------------------------------------------------------------------------
  // Python's int() on a string: an optional sign and one or more ASCII digits.

  predicate IsDigit(c: char) { '0' <= c <= '9' }

  predicate AllDigits(s: string) { forall i :: 0 <= i < |s| ==> IsDigit(s[i]) }

  predicate IsSign(c: char) { c == '+' || c == '-' }

  /** `s` is a string `int()` accepts. */
  predicate IsIntLiteral(s: string)
  {
    if |s| > 0 && IsSign(s[0]) then |s| > 1 && AllDigits(s[1..]) else |s| > 0 && AllDigits(s)
  }

  function DigitValue(c: char): nat
    requires IsDigit(c)
  {
    c as int - '0' as int
  }

  /** The decimal value of a run of digits, most significant first. */
  function DigitsValue(s: string): nat
    requires AllDigits(s)
  {
    if s == [] then 0 else DigitsValue(s[..|s| - 1]) * 10 + DigitValue(s[|s| - 1])
  }

  /** `int(s)`: `None` where Python raises `ValueError`. */
  function ParseInt(s: string): (r: Option<int>)
    ensures r.Some? <==> IsIntLiteral(s)
    ensures r.Some? && s[0] != '-' ==> r.value >= 0
  {
    if !IsIntLiteral(s) then None
    else if s[0] == '-' then Some(0 - DigitsValue(s[1..]))
    else if s[0] == '+' then Some(DigitsValue(s[1..]))
    else Some(DigitsValue(s))
  }

  // ---------------------------------------------------------------------------
  // Printing integers, the partner of ParseInt.

  function DigitChar(d: nat): (c: char)
    requires d < 10
    ensures IsDigit(c) && DigitValue(c) == d
  {
    ('0' as int + d) as char
  }

  /** `str(n)` for a natural number: its decimal digits, no leading zero. */
  function NatToString(n: nat): (s: string)
    ensures |s| > 0 && AllDigits(s)
  {
    if n < 10 then [DigitChar(n)] else NatToString(n / 10) + [DigitChar(n % 10)]
  }

  /** `str(i)` for any integer. */
  function IntToString(i: int): string
  {
    if i < 0 then "-" + NatToString(-i) else NatToString(i)
  }

  lemma {:induction false} DigitsValueOfNatToString(n: nat)
    ensures DigitsValue(NatToString(n)) == n
  {
    if n >= 10 {
      DigitsValueOfNatToString(n / 10);
      var s := NatToString(n);
      assert s[..|s| - 1] == NatToString(n / 10);
    }
  }

  /** `int(str(i)) == i` for every integer. */
  lemma ParseIntOfIntToString(i: int)
    ensures ParseInt(IntToString(i)) == Some(i)
  {
    if i < 0 {
      DigitsValueOfNatToString(-i);
      assert IntToString(i)[1..] == NatToString(-i);
    } else {
      DigitsValueOfNatToString(i);
    }
  }

  // ---------------------------------------------------------------------------
  // re.split(";|,|-", s)

  predicate IsSeparator(c: char) { c == ';' || c == ',' || c == '-' }

  predicate NoSeparator(s: string) { forall i :: 0 <= i < |s| ==> !IsSeparator(s[i]) }

  /** The separator characters of `s`, in order. */
  function SeparatorsOf(s: string): (seps: string)
    ensures forall i :: 0 <= i < |seps| ==> IsSeparator(seps[i])
  {
    if s == [] then []
    else (if IsSeparator(s[0]) then [s[0]] else []) + SeparatorsOf(s[1..])
  }

  /** `re.split(";|,|-", s)`: the pieces of `s` between its separators, empty
      pieces included. */
  function Split(s: string): (pieces: seq<string>)
    ensures |pieces| == |SeparatorsOf(s)| + 1
    ensures forall k :: 0 <= k < |pieces| ==> NoSeparator(pieces[k])
  {
    if s == [] then [[]]
    else
      var rest := Split(s[1..]);
      if IsSeparator(s[0]) then [[]] + rest
      else [[s[0]] + rest[0]] + rest[1..]
  }

  /** The inverse of splitting: the pieces with the separators put back. */
  function Join(pieces: seq<string>, seps: string): string
    requires |pieces| == |seps| + 1
  {
    if seps == [] then pieces[0] else pieces[0] + [seps[0]] + Join(pieces[1..], seps[1..])
  }

  lemma {:induction false} JoinPrefixFirst(c: char, pieces: seq<string>, seps: string)
    requires |pieces| == |seps| + 1
    ensures Join([[c] + pieces[0]] + pieces[1..], seps) == [c] + Join(pieces, seps)
  {
    var moved := [[c] + pieces[0]] + pieces[1..];
    assert moved[1..] == pieces[1..];
  }

  /** Splitting loses nothing: putting the separators back gives `s`. */
  lemma {:induction false} SplitJoin(s: string)
    ensures Join(Split(s), SeparatorsOf(s)) == s
  {
    if s != [] {
      SplitJoin(s[1..]);
      var rest := Split(s[1..]);
      if IsSeparator(s[0]) {
        assert Split(s) == [[]] + rest;
        assert SeparatorsOf(s) == [s[0]] + SeparatorsOf(s[1..]);
        assert ([[]] + rest)[1..] == rest;
        assert s == [s[0]] + s[1..];
      } else {
        assert SeparatorsOf(s) == SeparatorsOf(s[1..]);
        JoinPrefixFirst(s[0], rest, SeparatorsOf(s[1..]));
        assert s == [s[0]] + s[1..];
      }
    }
  }

  /** A piece free of separators is glued to the first piece of what follows. */
  lemma {:induction false} SplitAfterPlainPrefix(x: string, t: string)
    requires NoSeparator(x)
    ensures Split(x + t) == [x + Split(t)[0]] + Split(t)[1..]
  {
    if x != [] {
      SplitAfterPlainPrefix(x[1..], t);
      assert (x + t)[1..] == x[1..] + t;
      assert (x + t)[0] == x[0];
      assert [x[0]] + (x[1..] + Split(t)[0]) == x + Split(t)[0];
    } else {
      assert x + t == t;
      assert x + Split(t)[0] == Split(t)[0];
      assert Split(t) == [Split(t)[0]] + Split(t)[1..];
    }
  }

  lemma SplitOfPlain(x: string)
    requires NoSeparator(x)
    ensures Split(x) == [x]
  {
    SplitAfterPlainPrefix(x, []);
    assert x + [] == x;
  }

  /** Two separator-free strings around one separator split into exactly those two. */
  lemma SplitAroundSeparator(x: string, sep: char, y: string)
    requires NoSeparator(x) && NoSeparator(y) && IsSeparator(sep)
    ensures Split(x + [sep] + y) == [x, y]
  {
    SplitAfterPlainPrefix(x, [sep] + y);
    assert x + [sep] + y == x + ([sep] + y);
    SplitOfPlain(y);
    assert ([sep] + y)[1..] == y;
    assert Split([sep] + y) == [[]] + Split(y) == [[], y];
    assert x + [] == x;
  }

  // ---------------------------------------------------------------------------
  // `start, end = map(int, re.split(";|,|-", value))`

  /** The unpacking into exactly two integers: `None` where Python raises
      (a piece that is not an integer, or a count other than two). */
  function ParsePair(s: string): (r: Option<(int, int)>)
    ensures r.Some? <==> |Split(s)| == 2 && IsIntLiteral(Split(s)[0]) && IsIntLiteral(Split(s)[1])
    ensures r.Some? ==> r.value.0 >= 0 && r.value.1 >= 0
  {
    var pieces := Split(s);
    if |pieces| == 2 then
      match (ParseInt(pieces[0]), ParseInt(pieces[1]))
      case (Some(a), Some(b)) => Some((a, b))
      case _ => None
    else None
  }

  /** A pair is read only from two integers around exactly one separator. */
  lemma PairShape(s: string)
    requires ParsePair(s).Some?
    ensures exists i :: 0 <= i < |s| && IsSeparator(s[i]) && NoSeparator(s[..i]) && NoSeparator(s[i + 1..]) &&
                        ParseInt(s[..i]) == Some(ParsePair(s).value.0) &&
                        ParseInt(s[i + 1..]) == Some(ParsePair(s).value.1)
  {
    var pieces, seps := Split(s), SeparatorsOf(s);
    SplitJoin(s);
    assert s == pieces[0] + [seps[0]] + pieces[1];
    var i := |pieces[0]|;
    assert s[..i] == pieces[0] && s[i] == seps[0] && s[i + 1..] == pieces[1];
  }

  /** Printing two naturals around any separator and reading them back gives
      the same two naturals. */
  lemma PairRoundTrip(a: nat, sep: char, b: nat)
    requires IsSeparator(sep)
    ensures ParsePair(NatToString(a) + [sep] + NatToString(b)) == Some((a, b))
  {
    var x, y := NatToString(a), NatToString(b);
    SplitAroundSeparator(x, sep, y);
    ParseIntOfIntToString(a);
    ParseIntOfIntToString(b);
  }

  // ---------------------------------------------------------------------------
  // The two option callbacks.

  /** `validate_scene_range`: a single integer gives `(start,)`; otherwise a
      non-empty value must be two integers around one separator; an empty or
      absent value means no override. */
  function ValidateSceneRange(value: Option<string>): (r: Validated<AnimationRange>)
    ensures r == NoValue <==> value == None || value == Some("")
    ensures value.Some? && IsIntLiteral(value.value) ==> r == Value(From(ParseInt(value.value).value))
    ensures r.Value? && r.v.Span? ==> 0 <= r.v.start && 0 <= r.v.end
  {
    match value
    case None => NoValue
    case Some(s) =>
      match ParseInt(s)
      case Some(start) => Value(From(start))
      case None =>
        if s == "" then NoValue
        else
          match ParsePair(s)
          case Some((start, end)) => Value(Span(start, end))
          case None => ExitError
  }

  /** `validate_resolution`: a non-empty value must be two integers around
      one separator; there is no single-integer form. */
  function ValidateResolution(value: Option<string>): (r: Validated<Resolution>)
    ensures r == NoValue <==> value == None || value == Some("")
    ensures r.Value? ==> 0 <= r.v.width && 0 <= r.v.height
  {
    match value
    case None => NoValue
    case Some(s) =>
      if s == "" then NoValue
      else
        match ParsePair(s)
        case Some((width, height)) => Value(Resolution(width, height))
        case None => ExitError
  }

  /** Every integer, negative ones included, is read by `-n` as `(n,)`. */
  lemma SceneRangeSingleRoundTrip(n: int)
    ensures ValidateSceneRange(Some(IntToString(n))) == Value(From(n))
  {
    ParseIntOfIntToString(n);
  }

  /** `str(a) + sep + str(b)` is read by `-n` as `(a, b)`. */
  lemma SceneRangePairRoundTrip(a: nat, sep: char, b: nat)
    requires IsSeparator(sep)
    ensures ValidateSceneRange(Some(NatToString(a) + [sep] + NatToString(b))) == Value(Span(a, b))
  {
    var s := NatToString(a) + [sep] + NatToString(b);
    var k := |NatToString(a)|;
    assert s[k] == sep && 0 < k;
    assert !IsIntLiteral(s) by {
      assert s[0] == NatToString(a)[0] && IsDigit(s[0]);
      assert !IsDigit(s[k]);
    }
    PairRoundTrip(a, sep, b);
  }

  /** `str(a) + sep + str(b)` is read by `-r` as the resolution `a` by `b`. */
  lemma ResolutionRoundTrip(a: nat, sep: char, b: nat)
    requires IsSeparator(sep)
    ensures ValidateResolution(Some(NatToString(a) + [sep] + NatToString(b))) == Value(Resolution(a, b))
  {
    PairRoundTrip(a, sep, b);
  }

  /** `-r` has no single-integer form: any integer, e.g. "1920" or "-3", exits. */
  lemma ResolutionRejectsSingleInteger(s: string)
    requires IsIntLiteral(s)
    ensures ValidateResolution(Some(s)) == ExitError
  {
    if s[0] == '-' {
      var digits := s[1..];
      assert NoSeparator(digits);
      SplitOfPlain(digits);
      assert s == [s[0]] + digits;
      assert Split(s) == [[]] + Split(digits);
      assert Split(s)[0] == [];
    } else {
      assert NoSeparator(s) by {
        forall i | 0 <= i < |s| ensures !IsSeparator(s[i]) {
          if i > 0 { assert s[1..][i - 1] == s[i]; }
        }
      }
      SplitOfPlain(s);
    }
  }

  /** Where `-n` is not a single integer, it accepts exactly what `-r`
      accepts, with the same two numbers. */
  lemma SceneRangeAgreesWithResolution(s: string)
    requires !IsIntLiteral(s)
    ensures ValidateSceneRange(Some(s)) == ExitError <==> ValidateResolution(Some(s)) == ExitError
    ensures ValidateSceneRange(Some(s)).Value? <==> ValidateResolution(Some(s)).Value?
    ensures ValidateResolution(Some(s)).Value? ==>
              ValidateSceneRange(Some(s)) == Value(Span(ValidateResolution(Some(s)).v.width, ValidateResolution(Some(s)).v.height))
  {
  }

  /** A value with two or more separators is three or more pieces and,
      unless `int()` takes it whole, makes both callbacks exit. */
  lemma ThreePiecesRejected(s: string)
    requires |SeparatorsOf(s)| >= 2 && !IsIntLiteral(s)
    ensures ValidateSceneRange(Some(s)) == ExitError
    ensures ValidateResolution(Some(s)) == ExitError
  {
  }

  /** "1-2-3" is three pieces: `-n` exits. */
  lemma ThreeNumbersRejected()
    ensures ValidateSceneRange(Some("1-2-3")) == ExitError
  {
    var s := "1-2-3";
    assert !IsDigit(s[1]);
    assert |Split(s)| == 3 by {
      SplitAfterPlainPrefix("1", "-2-3");
      assert s == "1" + "-2-3";
      assert Split("-2-3") == [[]] + Split("2-3");
      SplitAroundSeparator("2", '-', "3");
      assert "2" + ['-'] + "3" == "2-3";
    }
  }

  /** "5-" ends in an empty piece: `-n` exits. */
  lemma TrailingSeparatorRejected()
    ensures ValidateSceneRange(Some("5-")) == ExitError
  {
    var s := "5-";
    assert !IsDigit(s[1]);
    SplitAroundSeparator("5", '-', "");
    assert "5" + ['-'] + "" == s;
  }

  /** "1,,2" holds an empty middle piece: `-n` exits. */
  lemma DoubledSeparatorRejected()
    ensures ValidateSceneRange(Some("1,,2")) == ExitError
  {
    var s := "1,,2";
    assert !IsDigit(s[1]);
    SplitAfterPlainPrefix("1", ",,2");
    assert s == "1" + ",,2";
    assert Split(",,2") == [[]] + Split(",2");
    assert Split(",2") == [[]] + Split("2");
  }

  /** "a,b" splits into two pieces that are not integers: `-n` exits. */
  lemma NonNumericPairRejected()
    ensures ValidateSceneRange(Some("a,b")) == ExitError
  {
    var s := "a,b";
    assert !IsDigit(s[0]);
    SplitAroundSeparator("a", ',', "b");
    assert "a" + [','] + "b" == s;
    assert !IsDigit("a"[0]);
  }

  // ---------------------------------------------------------------------------
  // The choice options, matched case-insensitively; the canonical spelling of
  // the matching choice is what the command receives.

  const FormatChoices: seq<string> := ["png", "gif", "mp4"]
  const DefaultFormat: string := "mp4"
  const QualityChoices: seq<string> := ["l", "m", "h", "p", "k"]
  const DefaultQuality: string := "h"
  const RendererChoices: seq<string> := ["cairo", "opengl", "webgl"]

  function LowerChar(c: char): char
  {
    if 'A' <= c <= 'Z' then (c as int - 'A' as int + 'a' as int) as char else c
  }

  function Lower(s: string): (r: string)
    ensures |r| == |s|
  {
    seq(|s|, i requires 0 <= i < |s| => LowerChar(s[i]))
  }

  /** The first choice equal to `s` up to ASCII case, if any. */
  function MatchChoice(choices: seq<string>, s: string): (r: Option<string>)
    ensures r.Some? ==> r.value in choices && Lower(r.value) == Lower(s)
    ensures r.None? ==> forall c :: c in choices ==> Lower(c) != Lower(s)
  {
    if choices == [] then None
    else if Lower(choices[0]) == Lower(s) then Some(choices[0])
    else MatchChoice(choices[1..], s)
  }

  /** A choice option: the default when absent, the matching choice when one
      matches, a usage error otherwise. */
  function ValidateChoice(choices: seq<string>, default: Option<string>, value: Option<string>): (r: Validated<string>)
    ensures r.Value? ==> (r.v in choices || (value.None? && default == Some(r.v)))
    ensures r.Value? && value.Some? ==> Lower(r.v) == Lower(value.value)
    ensures r == ExitError <==> value.Some? && forall c :: c in choices ==> Lower(c) != Lower(value.value)
  {
    match value
    case None => if default.Some? then Value(default.value) else NoValue
    case Some(s) =>
      match MatchChoice(choices, s)
      case Some(c) => Value(c)
      case None => ExitError
  }

  /** `--format`: one of png, gif, mp4, any case; mp4 when absent. */
  function ValidateFormat(value: Option<string>): (r: Validated<string>)
    ensures r != NoValue
    ensures r.Value? ==> r.v == "png" || r.v == "gif" || r.v == "mp4"
    ensures value.None? ==> r == Value("mp4")
  {
    ValidateChoice(FormatChoices, Some(DefaultFormat), value)
  }

  /** `--quality`: one of l, m, h, p, k, any case; h when absent. */
  function ValidateQuality(value: Option<string>): (r: Validated<string>)
    ensures r != NoValue
    ensures r.Value? ==> r.v in {"l", "m", "h", "p", "k"}
    ensures value.None? ==> r == Value("h")
  {
    ValidateChoice(QualityChoices, Some(DefaultQuality), value)
  }

  /** `--renderer`: one of cairo, opengl, webgl, any case; no default. */
  function ValidateRenderer(value: Option<string>): (r: Validated<string>)
    ensures r.Value? ==> r.v == "cairo" || r.v == "opengl" || r.v == "webgl"
    ensures r == NoValue <==> value.None?
  {
    ValidateChoice(RendererChoices, None, value)
  }

  /** Upper-case spellings are accepted and mapped to the lower-case choice. */
  lemma ChoicesIgnoreCase()
    ensures ValidateFormat(Some("PNG")) == Value("png")
    ensures ValidateQuality(Some("L")) == Value("l")
    ensures ValidateRenderer(Some("OpenGL")) == Value("opengl")
  {
    assert Lower("PNG") == "png" == Lower("png");
    assert Lower("L") == "l" == Lower("l");
    assert Lower("OpenGL") == "opengl" == Lower("opengl");
  }
}
