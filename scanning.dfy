/// The parts of Go's `fmt` scanning that the parsers of cmd.go rely on:
/// skipping white space, reading a token, the `%s` and `%d` verbs of
/// `Fscanf`, and the way a blank in a `Fscanf` format matches the input.
/// Each is given as a pure function from the remaining input to a value and
/// the input left after it; the class `ScanState` consumes its input one
/// rune at a time and is proved to do the same.
module Scanning {
  import opened Util

  /// The failures of the scanning primitives.
  datatype ScanError =
    | EOF
    | UnexpectedNewline
    | NewlineMismatch
    | ExpectedSpace
    | ExpectedInteger
    | OutOfRange(token: string)

  /// The text of each failure, in this model's words after the library's
  /// messages.
  function ErrorText(e: ScanError): string {
    match e
    case EOF => "EOF"
    case UnexpectedNewline => "unexpected newline"
    case NewlineMismatch => "newline in input does not match format"
    case ExpectedSpace => "expected space in input to match format"
    case ExpectedInteger => "expected integer"
    case OutOfRange(t) => "strconv.ParseInt: parsing \"" + t + "\": value out of range"
  }

  /// One scanning step: a value and the input after it, or a failure.
  datatype Scan<T> = Done(value: T, rest: seq<char>) | Failed(error: ScanError)

  /// Go's `int` is 64 bits wide.
  const MinInt: int := -0x8000_0000_0000_0000
  const MaxInt: int := 0x7fff_ffff_ffff_ffff

  predicate IsSpace(c: char) { c == ' ' || '\t' <= c <= '\r' }
  predicate IsBlank(c: char) { IsSpace(c) && c != '\n' }
  predicate NotSpace(c: char) { !IsSpace(c) }
  predicate NotNewline(c: char) { c != '\n' }
  predicate IsDigit(c: char) { '0' <= c <= '9' }

  /// The longest prefix of `s` whose runes `f` accepts.
  function TakeWhile(s: seq<char>, f: char -> bool): (t: seq<char>)
    ensures t <= s
    ensures forall i :: 0 <= i < |t| ==> f(t[i])
    ensures |t| < |s| ==> !f(s[|t|])
  {
    if s == [] || !f(s[0]) then [] else [s[0]] + TakeWhile(s[1..], f)
  }

  /// `SkipSpace`: drops leading white space. A newline is white space only
  /// when newlines count as spaces (`Sscan`); otherwise (`Fscanf`) meeting
  /// one is an error.
  function SkippedSpace(s: seq<char>, nlIsSpace: bool): (r: Scan<()>)
    ensures r.Done? ==> IsSuffix(r.rest, s) && (r.rest == [] || !IsSpace(r.rest[0]))
    ensures r.Done? ==> forall i :: 0 <= i < |s| - |r.rest| ==> IsSpace(s[i]) && (nlIsSpace || s[i] != '\n')
    ensures r.Failed? ==> !nlIsSpace && r.error == UnexpectedNewline
  {
    if s == [] then Done((), [])
    else if s[0] == '\n' && !nlIsSpace then Failed(UnexpectedNewline)
    else if IsSpace(s[0]) then
      var r := SkippedSpace(s[1..], nlIsSpace);
      assert r.Done? ==> s[1..][|s| - 1 - |r.rest|..] == s[|s| - |r.rest|..];
      r
    else Done((), s)
  }

  /// `SkipSpace` fails exactly where newlines are not white space and the
  /// first rune after the leading blanks is a newline.
  lemma {:induction false} SkippedSpaceFails(s: seq<char>, nlIsSpace: bool)
    ensures SkippedSpace(s, nlIsSpace).Failed? <==>
      !nlIsSpace && |TakeWhile(s, IsBlank)| < |s| && s[|TakeWhile(s, IsBlank)|] == '\n'
  {
    if s != [] && IsBlank(s[0]) {
      SkippedSpaceFails(s[1..], nlIsSpace);
      assert TakeWhile(s, IsBlank) == [s[0]] + TakeWhile(s[1..], IsBlank);
    }
  }

  /// `Token(skipSpace, f)`: skips white space if asked to, then reads the
  /// longest run of runes that `f` accepts from what is left. It fails only
  /// when the skipping fails.
  function TokenOf(s: seq<char>, skipSpace: bool, nlIsSpace: bool, f: char -> bool): (r: Scan<seq<char>>)
    ensures r.Failed? <==> skipSpace && SkippedSpace(s, nlIsSpace).Failed?
    ensures r.Failed? ==> r.error == UnexpectedNewline
    ensures r.Done? ==> r.value + r.rest == (if skipSpace then SkippedSpace(s, nlIsSpace).rest else s)
    ensures r.Done? ==> r.value == TakeWhile(r.value + r.rest, f)
    ensures r.Done? ==> IsSuffix(r.value + r.rest, s)
  {
    var u := if skipSpace then SkippedSpace(s, nlIsSpace) else Done((), s);
    if u.Failed? then Failed(u.error)
    else
      var tok := TakeWhile(u.rest, f);
      TokenSplits(u.rest, f);
      assert s[|s| - |s|..] == s;
      Done(tok, u.rest[|tok|..])
  }

  /// The token `TakeWhile` reads, followed by what it leaves, is the input.
  lemma TokenSplits(t: seq<char>, f: char -> bool)
    ensures t == TakeWhile(t, f) + t[|TakeWhile(t, f)|..]
  {
  }

  /// Where newlines are not white space, `SkipSpace` drops exactly the
  /// leading blanks.
  lemma SkippedLeadingBlanks(s: seq<char>)
    requires SkippedSpace(s, false).Done?
    ensures SkippedSpace(s, false).rest == s[|TakeWhile(s, IsBlank)|..]
  {
    var t := SkippedSpace(s, false).rest;
    var p := s[..|s| - |t|];
    assert s == p + t;
    forall i | 0 <= i < |p| ensures IsBlank(p[i]) {
      assert p[i] == s[i];
    }
    TakeWhileStops(p, t, IsBlank);
  }

  /// A run of blanks before a rune that is not white space is skipped, in
  /// either mode.
  lemma {:induction false} SkippedBlanks(w: seq<char>, line: seq<char>, nlIsSpace: bool)
    requires forall i :: 0 <= i < |w| ==> IsBlank(w[i])
    requires line == [] || !IsSpace(line[0])
    ensures SkippedSpace(w + line, nlIsSpace) == Done((), line)
  {
    if w == [] {
      assert w + line == line;
    } else {
      assert (w + line)[0] == w[0];
      assert (w + line)[1..] == w[1..] + line;
      SkippedBlanks(w[1..], line, nlIsSpace);
    }
  }

  /// The `%s` verb of `Fscanf`: skips white space (a newline is an error),
  /// fails at the end of the input, and otherwise reads one non-space token.
  function StringVerb(s: seq<char>): (r: Scan<string>)
    ensures r.Failed? <==> SkippedSpace(s, false).Failed? || SkippedSpace(s, false).rest == []
    ensures r.Failed? ==> r.error == if SkippedSpace(s, false).Failed? then UnexpectedNewline else EOF
    ensures r.Done? ==> r.value + r.rest == SkippedSpace(s, false).rest && r.value == TakeWhile(r.value + r.rest, NotSpace)
    ensures r.Done? ==> |r.value| > 0 && forall i :: 0 <= i < |r.value| ==> NotSpace(r.value[i])
    ensures r.Done? ==> IsSuffix(r.value + r.rest, s) && (r.rest == [] || IsSpace(r.rest[0]))
  {
    match SkippedSpace(s, false)
    case Failed(e) => Failed(e)
    case Done(_, t) =>
      if t == [] then Failed(EOF)
      else
        var tok := TakeWhile(t, NotSpace);
        assert t == tok + t[|tok|..];
        Done(tok, t[|tok|..])
  }

  /// A blank in a `Fscanf` format that follows a verb: it matches one or
  /// more blanks of the input, or the end of the input, but not a newline.
  function FormatSpace(s: seq<char>): (r: Scan<()>)
    ensures r.Done? <==> s == [] || IsBlank(s[0])
    ensures r.Done? ==> IsSuffix(r.rest, s) && (r.rest == [] || !IsBlank(r.rest[0]))
    ensures r.Done? ==> forall i :: 0 <= i < |s| - |r.rest| ==> IsBlank(s[i])
  {
    if s == [] then Done((), [])
    else if !IsSpace(s[0]) then Failed(ExpectedSpace)
    else if s[0] == '\n' then Failed(NewlineMismatch)
    else
      var b := TakeWhile(s, IsBlank);
      Done((), s[|b|..])
  }

  /// The value of a run of decimal digits.
  function DecimalValue(ds: seq<char>): nat
    requires forall i :: 0 <= i < |ds| ==> IsDigit(ds[i])
  {
    if ds == [] then 0
    else
      var last := ds[|ds| - 1];
      assert IsDigit(last);
      10 * DecimalValue(ds[..|ds| - 1]) + (last as int - '0' as int)
  }

  /// The sign a numeral may start with.
  function SignOf(t: seq<char>): (sign: string)
    ensures sign <= t && |sign| <= 1
  {
    if t != [] && (t[0] == '+' || t[0] == '-') then [t[0]] else []
  }

  /// The digits of the numeral at the head of `t`, after its sign.
  function NumeralDigits(t: seq<char>): seq<char> {
    TakeWhile(t[|SignOf(t)|..], IsDigit)
  }

  /// A magnitude with a sign in front.
  function Signed(sign: string, n: nat): int {
    if sign == "-" then -(n as int) else n
  }

  /// The value of the numeral at the head of `t`.
  function NumeralValue(t: seq<char>): int {
    Signed(SignOf(t), DecimalValue(NumeralDigits(t)))
  }

  predicate InIntRange(n: int) { MinInt <= n <= MaxInt }

  /// The `%d` verb of `Fscanf` into a Go `int`: skips white space (a newline
  /// is an error), then reads a numeral.
  function IntVerb(s: seq<char>): (r: Scan<int>)
    ensures SkippedSpace(s, false).Failed? ==> r == Failed(UnexpectedNewline)
    ensures SkippedSpace(s, false).Done? ==> r == NumeralOf(SkippedSpace(s, false).rest)
    ensures r.Done? ==> MinInt <= r.value <= MaxInt
    ensures r.Done? ==> IsSuffix(r.rest, s) && |r.rest| < |s| && (r.rest == [] || !IsDigit(r.rest[0]))
  {
    match SkippedSpace(s, false)
    case Failed(e) => Failed(e)
    case Done(_, t) => NumeralOf(t)
  }

  /// A numeral where `%d` has skipped to: an optional sign and a run of
  /// decimal digits, whose value must fit in 64 bits. It is read exactly
  /// when a digit follows the sign and the value is in range; an empty
  /// input or a lone sign is EOF, another rune after the sign is not an
  /// integer, and a value too large is out of range.
  function NumeralOf(t: seq<char>): (r: Scan<int>)
    ensures r.Done? <==> |NumeralDigits(t)| > 0 && InIntRange(NumeralValue(t))
    ensures r.Done? ==> r.value == NumeralValue(t) && r.rest == t[|SignOf(t)| + |NumeralDigits(t)|..]
    ensures r.Failed? ==>
      r.error == if |SignOf(t)| == |t| then EOF
                 else if NumeralDigits(t) == [] then ExpectedInteger
                 else OutOfRange(SignOf(t) + NumeralDigits(t))
  {
    if t == [] then Failed(EOF)
    else DigitsOf(t[|SignOf(t)|..], SignOf(t))
  }

  /// The digits of a `%d` after its optional `sign`.
  function DigitsOf(u: seq<char>, sign: string): (r: Scan<int>)
    ensures r.Done? <==> |TakeWhile(u, IsDigit)| > 0 && InIntRange(Signed(sign, DecimalValue(TakeWhile(u, IsDigit))))
    ensures r.Done? ==> r.value == Signed(sign, DecimalValue(TakeWhile(u, IsDigit))) && r.rest == u[|TakeWhile(u, IsDigit)|..]
    ensures r.Failed? ==> r.error == if u == [] then EOF else if !IsDigit(u[0]) then ExpectedInteger
                                     else OutOfRange(sign + TakeWhile(u, IsDigit))
    ensures r.Done? ==> IsSuffix(r.rest, u) && |r.rest| < |u| && (r.rest == [] || !IsDigit(r.rest[0]))
  {
    if u == [] then Failed(EOF)
    else if !IsDigit(u[0]) then Failed(ExpectedInteger)
    else
      var ds := TakeWhile(u, IsDigit);
      var v: int := Signed(sign, DecimalValue(ds));
      if v < MinInt || v > MaxInt then Failed(OutOfRange(sign + ds))
      else Done(v, u[|ds|..])
  }

  /// The decimal numeral of `n`, without sign or leading zeros.
  function DecimalText(n: nat): (t: string)
    ensures |t| > 0 && forall i :: 0 <= i < |t| ==> IsDigit(t[i])
  {
    if n < 10 then ['0' + n as char] else DecimalText(n / 10) + ['0' + (n % 10) as char]
  }

  /// A numeral starts with a digit, whatever follows it.
  lemma NumeralStartsWithDigit(n: nat, tail: seq<char>)
    ensures (DecimalText(n) + tail)[0] == DecimalText(n)[0] && IsDigit(DecimalText(n)[0])
  {
  }

  /// Reading back a numeral gives its number.
  lemma {:induction false} DecimalRoundTrip(n: nat)
    ensures DecimalValue(DecimalText(n)) == n
  {
    var t := DecimalText(n);
    if n >= 10 {
      DecimalRoundTrip(n / 10);
      assert t[..|t| - 1] == DecimalText(n / 10);
    }
  }

  /// `TakeWhile` stops exactly at the end of a prefix that `f` accepts
  /// when `f` refuses the rune after it.
  lemma {:induction false} TakeWhileStops(p: seq<char>, tail: seq<char>, f: char -> bool)
    requires forall i :: 0 <= i < |p| ==> f(p[i])
    requires tail == [] || !f(tail[0])
    ensures TakeWhile(p + tail, f) == p
  {
    if p != [] {
      assert (p + tail)[1..] == p[1..] + tail;
      TakeWhileStops(p[1..], tail, f);
    }
  }

  /// `%d` reads back the numeral of any non-negative Go `int`, leaving the
  /// input after it.
  lemma IntVerbRoundTrip(n: nat, tail: seq<char>)
    requires n <= MaxInt
    requires tail == [] || !IsDigit(tail[0])
    ensures IntVerb(DecimalText(n) + tail) == Done(n, tail)
  {
    NumeralRead(n, tail);
    IntVerbDone(DecimalText(n) + tail, n, tail);
  }

  /// `IntVerbRoundTrip` field by field.
  lemma NumeralRead(n: nat, tail: seq<char>)
    requires n <= MaxInt
    requires tail == [] || !IsDigit(tail[0])
    ensures IntVerb(DecimalText(n) + tail).Done?
    ensures IntVerb(DecimalText(n) + tail).value == n
    ensures IntVerb(DecimalText(n) + tail).rest == tail
  {
    var t := DecimalText(n);
    DecimalRoundTrip(n);
    NumeralStartsWithDigit(n, tail);
    SkippedNothing(t + tail, false);
    UnsignedNumeral(t, tail);
    assert (t + tail)[|t|..] == tail;
  }

  /// `%d` reads a minus sign and the digits after it as a negative value,
  /// leaving the input after the digits.
  lemma IntVerbMinus(ds: seq<char>, tail: seq<char>)
    requires |ds| > 0 && forall i :: 0 <= i < |ds| ==> IsDigit(ds[i])
    requires DecimalValue(ds) <= -MinInt
    requires tail == [] || !IsDigit(tail[0])
    ensures IntVerb(['-'] + (ds + tail)).Done?
    ensures IntVerb(['-'] + (ds + tail)).value == -(DecimalValue(ds) as int)
    ensures IntVerb(['-'] + (ds + tail)).rest == tail
  {
    NumeralNegative(ds, tail);
    SkippedNothing(['-'] + (ds + tail), false);
  }

  /// A `%d` that is done is determined by its value and its rest.
  lemma IntVerbDone(s: seq<char>, v: int, t: seq<char>)
    requires IntVerb(s).Done? && IntVerb(s).value == v && IntVerb(s).rest == t
    ensures IntVerb(s) == Done(v, t)
  {
  }

  /// The numeral step of `IntVerbMinus`, after the minus sign.
  lemma NumeralNegative(ds: seq<char>, tail: seq<char>)
    requires |ds| > 0 && forall i :: 0 <= i < |ds| ==> IsDigit(ds[i])
    requires DecimalValue(ds) <= -MinInt
    requires tail == [] || !IsDigit(tail[0])
    ensures NumeralOf(['-'] + (ds + tail)).Done?
    ensures NumeralOf(['-'] + (ds + tail)).value == -(DecimalValue(ds) as int)
    ensures NumeralOf(['-'] + (ds + tail)).rest == tail
  {
    var u := ds + tail;
    var s := ['-'] + u;
    assert SignOf(s) == "-" && s[1..] == u;
    assert NumeralOf(s) == DigitsOf(u, "-");
    TakeWhileStops(ds, tail, IsDigit);
    assert u[|ds|..] == tail;
    var r := DigitsOf(u, "-");
    assert r.Done? && r.value == -(DecimalValue(ds) as int) && r.rest == tail;
  }

  /// Digits whose value is past the largest Go `int` are refused by `%d`,
  /// and the error carries them.
  lemma IntVerbOverflow(ds: seq<char>, tail: seq<char>)
    requires |ds| > 0 && forall i :: 0 <= i < |ds| ==> IsDigit(ds[i])
    requires DecimalValue(ds) > MaxInt
    requires tail == [] || !IsDigit(tail[0])
    ensures IntVerb(ds + tail) == Failed(OutOfRange(ds))
  {
    var s := ds + tail;
    assert s[0] == ds[0];
    SkippedNothing(s, false);
    NumeralOverflow(ds, tail);
  }

  /// The numeral step of `IntVerbOverflow`.
  lemma NumeralOverflow(ds: seq<char>, tail: seq<char>)
    requires |ds| > 0 && forall i :: 0 <= i < |ds| ==> IsDigit(ds[i])
    requires DecimalValue(ds) > MaxInt
    requires tail == [] || !IsDigit(tail[0])
    ensures NumeralOf(ds + tail) == Failed(OutOfRange(ds))
  {
    UnsignedNumeral(ds, tail);
    assert [] + ds == ds;
  }

  /// Digits with no sign in front are the whole numeral.
  lemma UnsignedNumeral(ds: seq<char>, tail: seq<char>)
    requires |ds| > 0 && forall i :: 0 <= i < |ds| ==> IsDigit(ds[i])
    requires tail == [] || !IsDigit(tail[0])
    ensures SignOf(ds + tail) == [] && NumeralDigits(ds + tail) == ds
  {
    var s := ds + tail;
    assert s[0] == ds[0];
    assert s[0..] == s;
    TakeWhileStops(ds, tail, IsDigit);
  }

  /// `%s` reads a whole non-space token followed by white space or the end.
  lemma StringVerbReads(tok: string, t: seq<char>)
    requires |tok| > 0 && forall i :: 0 <= i < |tok| ==> NotSpace(tok[i])
    requires t == [] || IsSpace(t[0])
    ensures StringVerb(tok + t) == Done(tok, t)
  {
    var s := tok + t;
    assert s[0] == tok[0];
    assert SkippedSpace(s, false) == Done((), s);
    TakeWhileStops(tok, t, NotSpace);
    assert s[|tok|..] == t;
  }

  /// A format blank that matches takes the whole leading run of blanks.
  lemma FormatSpaceRest(s: seq<char>)
    requires FormatSpace(s).Done?
    ensures FormatSpace(s).rest == s[|TakeWhile(s, IsBlank)|..]
  {
  }

  /// Nothing is skipped before a rune that is not white space.
  lemma SkippedNothing(s: seq<char>, nlIsSpace: bool)
    requires s == [] || !IsSpace(s[0])
    ensures SkippedSpace(s, nlIsSpace).Done? && SkippedSpace(s, nlIsSpace).rest == s
  {
  }

  /// A format blank does not match a newline.
  lemma FormatSpaceNewline(t: seq<char>)
    requires |t| > 0 && t[0] == '\n'
    ensures FormatSpace(t) == Failed(NewlineMismatch)
  {
  }

  /// A format blank matches the whole run of blanks before a non-blank.
  lemma FormatSpaceReads(p: seq<char>, t: seq<char>)
    requires |p| > 0 && forall i :: 0 <= i < |p| ==> IsBlank(p[i])
    requires t == [] || !IsBlank(t[0])
    ensures FormatSpace(p + t).Done? && FormatSpace(p + t).rest == t
  {
    assert (p + t)[0] == p[0];
    TakeWhileStops(p, t, IsBlank);
    assert (p + t)[|p|..] == t;
  }

  /// The scanner's state: the input, the position reached, and whether the
  /// outermost scanning call treats newlines as spaces (`Sscan`) or not
  /// (`Fscanf`).
  class ScanState {
    const input: seq<char>
    const nlIsSpace: bool
    var pos: nat

    ghost predicate Valid()
      reads this
    {
      pos <= |input|
    }

    /// The input not read yet.
    function Rest(): seq<char>
      reads this
      requires Valid()
    {
      input[pos..]
    }

    constructor (input: seq<char>, nlIsSpace: bool)
      ensures Valid() && this.input == input && this.nlIsSpace == nlIsSpace
      ensures Rest() == input
    {
      this.input := input;
      this.nlIsSpace := nlIsSpace;
      pos := 0;
    }

    /// Reads runes while `f` accepts them (the loop inside `Token`).
    method ReadWhile(f: char -> bool) returns (tok: seq<char>)
      requires Valid()
      modifies this
      ensures Valid()
      ensures tok == TakeWhile(old(Rest()), f) && Rest() == old(Rest())[|tok|..]
    {
      var start, p := pos, pos;
      while p < |input| && f(input[p])
        invariant start <= p <= |input|
        invariant forall i :: start <= i < p ==> f(input[i])
      {
        p := p + 1;
      }
      pos := p;
      tok := input[start..p];
      assert input[start..] == tok + input[p..];
      TakeWhileStops(tok, input[p..], f);
    }

    /// `SkipSpace`, with newlines counted as spaces when `nl` holds.
    method SkipSpace(nl: bool) returns (err: Option<ScanError>)
      requires Valid()
      modifies this
      ensures Valid()
      ensures match SkippedSpace(old(Rest()), nl)
        case Done(_, rest) => err == None && Rest() == rest
        case Failed(e) => err == Some(e)
    {
      ghost var r := SkippedSpace(Rest(), nl);
      var p := pos;
      while p < |input| && IsSpace(input[p]) && (nl || input[p] != '\n')
        invariant p <= |input|
        invariant SkippedSpace(input[p..], nl) == r
      {
        assert input[p..][1..] == input[p + 1..];
        p := p + 1;
      }
      pos := p;
      if p < |input| && input[p] == '\n' {
        assert r.Failed? && r.error == UnexpectedNewline;
        return Some(UnexpectedNewline);
      }
      assert r.Done? && r.rest == input[p..];
      return None;
    }

    /// `Token(skipSpace, f)`, skipping space the way the outermost call does.
    method Token(skipSpace: bool, f: char -> bool) returns (tok: seq<char>, err: Option<ScanError>)
      requires Valid()
      modifies this
      ensures Valid()
      ensures match TokenOf(old(Rest()), skipSpace, nlIsSpace, f)
        case Done(t, rest) => err == None && tok == t && Rest() == rest
        case Failed(e) => err == Some(e)
    {
      tok := [];
      if skipSpace {
        err := SkipSpace(nlIsSpace);
        if err.Some? {
          return;
        }
      }
      tok := ReadWhile(f);
      err := None;
    }

    /// The `%s` verb of a `Fscanf` on this state.
    method ScanString() returns (s: string, err: Option<ScanError>)
      requires Valid()
      modifies this
      ensures Valid()
      ensures match StringVerb(old(Rest()))
        case Done(t, rest) => err == None && s == t && Rest() == rest
        case Failed(e) => err == Some(e)
    {
      s := [];
      err := SkipSpace(false);
      if err.Some? {
        return;
      }
      if pos == |input| {
        err := Some(EOF);
        return;
      }
      s := ReadWhile(NotSpace);
    }

    /// A blank of a `Fscanf` format, matched against this state.
    method MatchSpace() returns (err: Option<ScanError>)
      requires Valid()
      modifies this
      ensures Valid()
      ensures match FormatSpace(old(Rest()))
        case Done(_, rest) => err == None && Rest() == rest
        case Failed(e) => err == Some(e)
    {
      if pos == |input| {
        return None;
      }
      if !IsSpace(input[pos]) {
        return Some(ExpectedSpace);
      }
      if input[pos] == '\n' {
        return Some(NewlineMismatch);
      }
      var _ := ReadWhile(IsBlank);
      return None;
    }

    /// The `%d` verb of a `Fscanf` on this state, into a Go `int`.
    method ScanInt() returns (v: int, err: Option<ScanError>)
      requires Valid()
      modifies this
      ensures Valid()
      ensures match IntVerb(old(Rest()))
        case Done(n, rest) => err == None && v == n && Rest() == rest
        case Failed(e) => err == Some(e)
    {
      v := 0;
      ghost var s := Rest();
      err := SkipSpace(false);
      if err.Some? {
        return;
      }
      ghost var t := Rest();
      assert IntVerb(s) == NumeralOf(t);
      if pos == |input| {
        err := Some(EOF);
        return;
      }
      var sign := "";
      if input[pos] == '+' || input[pos] == '-' {
        sign := [input[pos]];
        pos := pos + 1;
      }
      assert sign == SignOf(t) && Rest() == t[|sign|..];
      assert IntVerb(s) == DigitsOf(Rest(), sign);
      v, err := ScanDigits(sign);
    }

    /// The digits of a `%d` after its optional `sign`.
    method ScanDigits(sign: string) returns (v: int, err: Option<ScanError>)
      requires Valid()
      modifies this
      ensures Valid()
      ensures match DigitsOf(old(Rest()), sign)
        case Done(n, rest) => err == None && v == n && Rest() == rest
        case Failed(e) => err == Some(e)
    {
      v := 0;
      if pos == |input| {
        return v, Some(EOF);
      }
      if !IsDigit(input[pos]) {
        return v, Some(ExpectedInteger);
      }
      var ds := ReadWhile(IsDigit);
      v := Signed(sign, DecimalValue(ds));
      if v < MinInt || v > MaxInt {
        return 0, Some(OutOfRange(sign + ds));
      }
      err := None;
    }
  }
}
