/// cmd.go: the command kinds of the wire protocol, the commands a
/// connection submits to the workplace, and the two scanners that read a
/// frame (`rawCmd`) and the arguments of SEND (`rawMessageCmd`).
module Commands {
  import opened Util
  import opened Scanning

  /// The kinds of cmd.go: seven requests and the two replies.
  datatype Kind = Register | Delete | Join | Leave | Channels | Members | Send | OK | Err

  /// The token of each kind on the wire.
  function KindText(k: Kind): string {
    match k
    case Register => "REGISTER"
    case Delete => "DELETE"
    case Join => "JOIN"
    case Leave => "LEAVE"
    case Channels => "CHANNELS"
    case Members => "MEMBERS"
    case Send => "SEND"
    case OK => "OK"
    case Err => "ERR"
  }

  /// The kind a token names, if it names one.
  function ParseKind(s: string): (r: Option<Kind>)
    ensures r.Some? ==> KindText(r.value) == s
    ensures r.None? ==> forall k :: KindText(k) != s
  {
    if s == "REGISTER" then Some(Register)
    else if s == "DELETE" then Some(Delete)
    else if s == "JOIN" then Some(Join)
    else if s == "LEAVE" then Some(Leave)
    else if s == "CHANNELS" then Some(Channels)
    else if s == "MEMBERS" then Some(Members)
    else if s == "SEND" then Some(Send)
    else if s == "OK" then Some(OK)
    else if s == "ERR" then Some(Err)
    else None
  }

  /// The nine kinds have pairwise distinct tokens, so each token names at
  /// most one kind.
  lemma KindTextInjective(a: Kind, b: Kind)
    ensures KindText(a) == KindText(b) ==> a == b
  {
  }

  /// Reading back the token of a kind gives that kind.
  lemma ParseKindRoundTrip(k: Kind)
    ensures ParseKind(KindText(k)) == Some(k)
  {
    var r := ParseKind(KindText(k));
    assert r.Some?;
    KindTextInjective(r.value, k);
  }

  /// The connection a member's messages are written to, by identity.
  type Sink = nat

  /// A participant: its username and the connection it writes to.
  datatype Member = Member(name: string, sink: Sink)

  /// The eight commands a connection submits to the workplace.
  datatype Command =
    | RegisterCmd(target: Member)
    | DeleteCmd(target: Member)
    | JoinCmd(member: Member, channel: string)
    | LeaveCmd(member: Member, channel: string)
    | ChannelsCmd(member: Member)
    | MembersCmd(member: Member)
    | MessageInChannelCmd(from: Member, channel: string, body: string)
    | DirectMessageCmd(from: Member, to: string, body: string)

  /// The fields of a scanned `rawCmd`.
  datatype Frame = Frame(kind: string, args: string)

  /// The fields of a scanned `rawMessageCmd`.
  datatype MessageArgs = MessageArgs(target: string, len: int, body: string)

  /// An error a `Scan` method returns: the wording it adds and the scanning
  /// failure it wraps.
  datatype CmdError = CmdError(context: string, cause: ScanError)

  function CmdErrorText(e: CmdError): string {
    e.context + ": " + ErrorText(e.cause)
  }

  const ParseCommandContext: string := "failed to parse command"
  const ParseArgsContext: string := "failed to parse args"
  const TargetOrLengthContext: string := "failed to scan target or length"

  /// A scanned value and the input after it, or the error `Scan` returns.
  datatype Parse<T> = Parsed(value: T, rest: seq<char>) | Unparsed(error: CmdError)

  /// What `rawCmd.Scan` can produce: a non-empty kind without white space,
  /// and arguments without a newline that do not start with white space.
  predicate WellFormedFrame(f: Frame) {
    && |f.kind| > 0
    && (forall i :: 0 <= i < |f.kind| ==> NotSpace(f.kind[i]))
    && (forall i :: 0 <= i < |f.args| ==> NotNewline(f.args[i]))
    && (f.args == [] || !IsSpace(f.args[0]))
  }

  /// `rawCmd.Scan`: the kind is the first white-space-delimited token (read
  /// by a nested `Fscanf`, where a newline is an error); the arguments are
  /// what follows up to the next newline, after skipping white space the way
  /// the outermost scanning call does (`nlIsSpace`).
  function ScanFrame(s: seq<char>, nlIsSpace: bool): (r: Parse<Frame>)
    ensures r.Parsed? ==> WellFormedFrame(r.value)
    ensures r.Parsed? ==> IsSuffix(r.value.args + r.rest, s) && (r.rest == [] || r.rest[0] == '\n')
    ensures r.Parsed? ==> FrameLaidOut(s, r.value, r.rest, nlIsSpace)
    ensures r.Parsed? && nlIsSpace && r.value.args == [] ==> r.rest == []
    ensures r.Unparsed? ==> r.error.context == ParseCommandContext || r.error.context == ParseArgsContext
  {
    match StringVerb(s)
    case Failed(e) => Unparsed(CmdError(ParseCommandContext, e))
    case Done(kind, t) =>
      match TokenOf(t, true, nlIsSpace, NotNewline)
      case Failed(e) => Unparsed(CmdError(ParseArgsContext, e))
      case Done(args, rest) =>
        ArgsTokenShape(t, nlIsSpace, args, rest);
        FrameLayout(s, nlIsSpace, kind, t, args, rest);
        SuffixTransitive(t, kind + t, s);
        SuffixTransitive(args + rest, t, s);
        Parsed(Frame(kind, args), rest)
  }

  /// Where a scanned frame lies in its input `s`: after the leading blanks
  /// comes the kind, then white space (a newline only where newlines count
  /// as spaces), empty only at the end of the input, then the arguments and
  /// `rest`.
  ghost predicate FrameLaidOut(s: seq<char>, f: Frame, rest: seq<char>, nlIsSpace: bool) {
    var i := |TakeWhile(s, IsBlank)|;
    var j := i + |f.kind|;
    var a := |s| - |f.args + rest|;
    && j <= a && s[i..j] == f.kind
    && (j == a ==> a == |s|)
    && forall k :: j <= k < a ==> IsSpace(s[k]) && (nlIsSpace || s[k] != '\n')
  }

  /// The kind token followed by the arguments token lies in the input as
  /// `FrameLaidOut` says.
  lemma FrameLayout(s: seq<char>, nlIsSpace: bool, kind: string, t: seq<char>, args: string, rest: seq<char>)
    requires StringVerb(s) == Done(kind, t)
    requires TokenOf(t, true, nlIsSpace, NotNewline) == Done(args, rest)
    ensures FrameLaidOut(s, Frame(kind, args), rest, nlIsSpace)
  {
    var i := |TakeWhile(s, IsBlank)|;
    KindAfterBlanks(s, kind, t);
    GapIsSpace(s[i..], kind, t, args + rest, nlIsSpace);
    LaidOutAfter(s, i, Frame(kind, args), rest, args + rest, nlIsSpace);
  }

  /// The kind token starts right after the leading blanks.
  lemma KindAfterBlanks(s: seq<char>, kind: string, t: seq<char>)
    requires StringVerb(s) == Done(kind, t)
    ensures s[|TakeWhile(s, IsBlank)|..] == kind + t
  {
    SkippedLeadingBlanks(s);
  }

  /// `FrameLaidOut` from the layout of what follows the leading blanks.
  lemma LaidOutAfter(s: seq<char>, i: nat, f: Frame, rest: seq<char>, u: seq<char>, nlIsSpace: bool)
    requires i == |TakeWhile(s, IsBlank)| && u == f.args + rest
    requires |f.kind| <= |s[i..]| - |u| && s[i..][..|f.kind|] == f.kind
    requires |f.kind| == |s[i..]| - |u| ==> u == []
    requires forall k :: |f.kind| <= k < |s[i..]| - |u| ==> IsSpace(s[i..][k]) && (nlIsSpace || s[i..][k] != '\n')
    ensures FrameLaidOut(s, f, rest, nlIsSpace)
  {
    var j := i + |f.kind|;
    assert s[i..j] == s[i..][..|f.kind|];
    forall k | j <= k < |s| - |u| ensures IsSpace(s[k]) && (nlIsSpace || s[k] != '\n') {
      assert s[k] == s[i..][k - i];
    }
  }

  /// The white space between the kind and the arguments token.
  lemma GapIsSpace(v: seq<char>, kind: string, t: seq<char>, u: seq<char>, nlIsSpace: bool)
    requires v == kind + t && (t == [] || IsSpace(t[0]))
    requires SkippedSpace(t, nlIsSpace).Done? && SkippedSpace(t, nlIsSpace).rest == u
    ensures |kind| <= |v| - |u| && v[..|kind|] == kind
    ensures |kind| == |v| - |u| ==> u == []
    ensures forall k :: |kind| <= k < |v| - |u| ==> IsSpace(v[k]) && (nlIsSpace || v[k] != '\n')
  {
    forall k | |kind| <= k < |v| - |u| ensures IsSpace(v[k]) && (nlIsSpace || v[k] != '\n') {
      assert v[k] == t[k - |kind|];
    }
    if |t| == |u| {
      assert u == t[|t| - |u|..] == t;
    }
  }

  /// The arguments token has no newline, does not start with white space,
  /// and stops at a newline or at the end of the input.
  lemma ArgsTokenShape(t: seq<char>, nlIsSpace: bool, args: string, rest: seq<char>)
    requires TokenOf(t, true, nlIsSpace, NotNewline) == Done(args, rest)
    ensures forall i :: 0 <= i < |args| ==> NotNewline(args[i])
    ensures args == [] || !IsSpace(args[0])
    ensures rest == [] || rest[0] == '\n'
    ensures nlIsSpace && args == [] ==> rest == []
    ensures IsSuffix(args + rest, t)
  {
    var u := SkippedSpace(t, nlIsSpace).rest;
    assert args == TakeWhile(u, NotNewline) && rest == u[|args|..];
    assert u == args + rest;
    if args != [] {
      assert args[0] == u[0];
    }
    if rest != [] {
      assert rest[0] == u[|args|];
    }
  }

  /// A frame as a client writes it: the kind, one space, the arguments.
  function FrameText(f: Frame): string {
    f.kind + " " + f.args
  }

  /// A frame written as its kind, a run of blanks and its arguments scans
  /// back to that frame and leaves the rest of the line (its newline, if
  /// any) unread. Empty arguments need the input to end there: a newline
  /// would be skipped (or refused) as space.
  lemma ScanFrameRoundTrip(f: Frame, w: seq<char>, tail: seq<char>, nlIsSpace: bool)
    requires WellFormedFrame(f)
    requires w != [] && forall i :: 0 <= i < |w| ==> IsBlank(w[i])
    requires tail == [] || tail[0] == '\n'
    requires f.args == [] ==> tail == []
    ensures ScanFrame(f.kind + w + f.args + tail, nlIsSpace) == Parsed(f, tail)
  {
    var t := w + f.args + tail;
    assert f.kind + w + f.args + tail == f.kind + t;
    assert t[0] == w[0];
    StringVerbReads(f.kind, t);
    ArgsTokenReads(w, f.args, tail, nlIsSpace);
    ScanFrameSteps(f.kind + t, nlIsSpace, t, f, tail);
  }

  /// `ScanFrame` is the kind token, then the arguments token.
  lemma ScanFrameSteps(s: seq<char>, nlIsSpace: bool, t: seq<char>, f: Frame, tail: seq<char>)
    requires StringVerb(s) == Done(f.kind, t)
    requires TokenOf(t, true, nlIsSpace, NotNewline) == Done(f.args, tail)
    ensures ScanFrame(s, nlIsSpace) == Parsed(f, tail)
  {
  }

  /// The arguments token reads the arguments after any run of blanks.
  lemma ArgsTokenReads(w: seq<char>, args: string, tail: seq<char>, nlIsSpace: bool)
    requires forall i :: 0 <= i < |w| ==> IsBlank(w[i])
    requires WellFormedFrame(Frame("_", args))
    requires tail == [] || tail[0] == '\n'
    requires args == [] ==> tail == []
    ensures TokenOf(w + args + tail, true, nlIsSpace, NotNewline) == Done(args, tail)
  {
    var line := args + tail;
    assert w + args + tail == w + line;
    assert line == [] || !IsSpace(line[0]) by {
      if args != [] { assert line[0] == args[0]; }
    }
    SkippedBlanks(w, line, nlIsSpace);
    TakeWhileStops(args, tail, NotNewline);
    assert line[|args|..] == tail;
  }

  /// `Sscan` of "JOIN alice" reads kind JOIN and arguments "alice".
  lemma ScanJoinAlice()
    ensures ScanFrame("JOIN alice", true) == Parsed(Frame("JOIN", "alice"), [])
  {
    var f := Frame("JOIN", "alice");
    assert f.kind == ['J', 'O', 'I', 'N'] && f.args == ['a', 'l', 'i', 'c', 'e'];
    assert WellFormedFrame(f);
    assert f.kind + " " + f.args + [] == "JOIN alice";
    ScanFrameRoundTrip(f, " ", [], true);
  }

  /// A kind alone, at the end of the input, scans with empty arguments.
  lemma ScanFrameKindOnly(kind: string, nlIsSpace: bool)
    requires WellFormedFrame(Frame(kind, ""))
    ensures ScanFrame(kind, nlIsSpace) == Parsed(Frame(kind, ""), [])
  {
    TakeWhileStops(kind, [], NotSpace);
    assert kind + [] == kind;
    assert StringVerb(kind) == Done(kind, []);
  }

  /// A kind followed directly by a newline is refused where newlines are
  /// not white space, since skipping space before the arguments meets it.
  lemma ScanFrameBareLine(kind: string)
    requires WellFormedFrame(Frame(kind, ""))
    ensures ScanFrame(kind + "\n", false) == Unparsed(CmdError(ParseArgsContext, UnexpectedNewline))
  {
    TakeWhileStops(kind, "\n", NotSpace);
    assert (kind + "\n")[0] == kind[0];
    assert (kind + "\n")[|kind|..] == "\n";
    assert StringVerb(kind + "\n") == Done(kind, "\n");
  }

  /// The runes the body token takes: the predicate `n < len` is asked once
  /// per rune, with `n` counting the questions asked so far.
  function BodyToken(s: seq<char>, len: int, n: nat): (b: seq<char>)
    ensures b <= s
    ensures |b| == if n < len then Min(len - n, |s|) else 0
  {
    if s == [] || !(n < len) then [] else [s[0]] + BodyToken(s[1..], len, n + 1)
  }

  function Min(a: int, b: int): int { if a < b then a else b }

  /// `rawMessageCmd.Scan`, the `Fscanf` of "%s %d " followed by the body
  /// token: the target, the length, then at most `len` runes of whatever
  /// follows the blanks after the length, white space and newlines included.
  function ScanMessage(s: seq<char>): (r: Parse<MessageArgs>)
    ensures r.Unparsed? <==> StringVerb(s).Failed? || !LengthReadable(StringVerb(s).rest)
    ensures r.Unparsed? ==> r.error.context == TargetOrLengthContext
    ensures r.Unparsed? && StringVerb(s).Failed? ==> r.error.cause == StringVerb(s).error
    ensures r.Parsed? ==> StringVerb(s).Done? && r.value.target == StringVerb(s).value
    ensures r.Parsed? ==> LengthAndBodyLaidOut(StringVerb(s).rest, r.value.len, r.value.body, r.rest)
    ensures r.Parsed? ==> |r.value.target| > 0 && forall i :: 0 <= i < |r.value.target| ==> NotSpace(r.value.target[i])
    ensures r.Parsed? ==> MinInt <= r.value.len <= MaxInt
    ensures r.Parsed? ==> |r.value.body| <= r.value.len || r.value.body == []
    ensures r.Parsed? && r.value.len <= 0 ==> r.value.body == []
    ensures r.Parsed? && |r.value.body| < r.value.len ==> r.rest == []
  {
    match StringVerb(s)
    case Failed(e) => Unparsed(CmdError(TargetOrLengthContext, e))
    case Done(target, t1) =>
      match LengthOf(t1)
      case Unparsed(e) => Unparsed(e)
      case Parsed(len, t4) =>
        var r := BodyOf(target, len, t4);
        assert LengthAndBodyLaidOut(t1, len, r.value.body, r.rest);
        r
  }

  /// What follows the target of SEND arguments: the length is the numeral
  /// after the blanks, and the body is as much of what follows the next
  /// blanks as `len` allows.
  ghost predicate LengthAndBodyLaidOut(t1: seq<char>, len: int, body: string, rest: seq<char>) {
    && LengthReadable(t1) && len == NumeralValue(t1[NumeralStart(t1)..])
    && body + rest == AfterNumeral(t1)
    && body == BodyToken(AfterNumeral(t1), len, 0)
  }

  /// The body token after the format, with the target and length read.
  function BodyOf(target: string, len: int, t4: seq<char>): (r: Parse<MessageArgs>)
    ensures r.Parsed? && r.value == MessageArgs(target, len, r.value.body)
    ensures r.value.body + r.rest == t4 && r.value.body == BodyToken(t4, len, 0)
    ensures |r.value.body| <= len || r.value.body == []
    ensures len <= 0 ==> r.value.body == []
    ensures |r.value.body| < len ==> r.rest == []
  {
    var body := BodyToken(t4, len, 0);
    assert t4 == body + t4[|body|..];
    Parsed(MessageArgs(target, len, body), t4[|body|..])
  }

  /// Where the numeral of a length starts in `t1`: after its leading blanks.
  function NumeralStart(t1: seq<char>): (b: nat)
    ensures b <= |t1|
  {
    |TakeWhile(t1, IsBlank)|
  }

  /// Where the numeral of a length ends in `t1`.
  function NumeralEnd(t1: seq<char>): (e: nat)
    ensures NumeralStart(t1) <= e <= |t1|
  {
    var v := t1[NumeralStart(t1)..];
    assert NumeralDigits(v) <= v[|SignOf(v)|..];
    NumeralStart(t1) + |SignOf(v)| + |NumeralDigits(v)|
  }

  /// What follows the numeral of a length and the blanks after it.
  function AfterNumeral(t1: seq<char>): seq<char> {
    var e := NumeralEnd(t1);
    t1[e..][|TakeWhile(t1[e..], IsBlank)|..]
  }

  /// The " %d " part of the format matches `t1`: a non-empty run of
  /// blanks, a numeral with at least one digit whose value fits in Go's
  /// `int`, then a blank or the end of the input.
  predicate LengthReadable(t1: seq<char>) {
    var v := t1[NumeralStart(t1)..];
    var e := NumeralEnd(t1);
    && 0 < NumeralStart(t1) && |NumeralDigits(v)| > 0 && InIntRange(NumeralValue(v))
    && (e == |t1| || IsBlank(t1[e]))
  }

  /// The " %d " part of the format once the target is read: a run of
  /// blanks, the length, then a run of blanks (or the end of the input).
  /// It matches exactly when the input is laid out that way; the length is
  /// the value of the numeral, and what is left starts after the blanks
  /// that follow it.
  function LengthOf(t1: seq<char>): (r: Parse<int>)
    ensures r.Parsed? <==> LengthReadable(t1)
    ensures r.Parsed? ==> r.value == NumeralValue(t1[NumeralStart(t1)..])
    ensures r.Parsed? ==> r.rest == AfterNumeral(t1)
    ensures r.Parsed? ==> MinInt <= r.value <= MaxInt
    ensures r.Parsed? ==> IsSuffix(r.rest, t1) && (r.rest == [] || !IsBlank(r.rest[0]))
    ensures r.Unparsed? ==> r.error.context == TargetOrLengthContext
  {
    match FormatSpace(t1)
    case Failed(e) =>
      assert NumeralStart(t1) == 0;
      Unparsed(CmdError(TargetOrLengthContext, e))
    case Done(_, t2) =>
      assert t2 == t1[NumeralStart(t1)..] by { FormatSpaceRest(t1); }
      NumeralAfterBlanks(t1, t2);
      match IntVerb(t2)
      case Failed(e) => Unparsed(CmdError(TargetOrLengthContext, e))
      case Done(len, t3) =>
        var e := NumeralEnd(t1);
        assert t3 == t1[e..];
        match FormatSpace(t3)
        case Failed(err) => Unparsed(CmdError(TargetOrLengthContext, err))
        case Done(_, t4) =>
          BlanksAfterNumeral(t1, e, t4);
          Parsed(len, t4)
  }

  /// The format blank after the numeral leaves what follows the blanks
  /// after it, a suffix of the input.
  lemma BlanksAfterNumeral(t1: seq<char>, e: nat, t4: seq<char>)
    requires e <= |t1| && FormatSpace(t1[e..]).Done? && t4 == FormatSpace(t1[e..]).rest
    ensures t4 == t1[e..][|TakeWhile(t1[e..], IsBlank)|..] && IsSuffix(t4, t1)
  {
    var t3 := t1[e..];
    var m := |TakeWhile(t3, IsBlank)|;
    FormatSpaceRest(t3);
    SliceOfSlice(t1, e, m);
  }

  /// After the blanks a format blank takes, `%d` reads exactly the numeral
  /// that `LengthReadable` looks at.
  lemma NumeralAfterBlanks(t1: seq<char>, t2: seq<char>)
    requires FormatSpace(t1).Done? && t2 == t1[NumeralStart(t1)..]
    ensures IntVerb(t2).Done? <==> 0 < NumeralStart(t1) && |NumeralDigits(t2)| > 0 && InIntRange(NumeralValue(t2))
    ensures IntVerb(t2).Done? ==> IntVerb(t2).value == NumeralValue(t2) && IntVerb(t2).rest == t1[NumeralEnd(t1)..]
  {
    var b := NumeralStart(t1);
    if b == 0 {
      assert t1 == [] && t2 == [];
      SkippedNothing(t2, false);
      assert IntVerb(t2).Failed?;
    } else if t2 != [] && t2[0] == '\n' {
      assert SignOf(t2) == [] && NumeralDigits(t2) == TakeWhile(t2, IsDigit) == [];
      assert IntVerb(t2).Failed?;
    } else {
      assert t2 == [] || !IsSpace(t2[0]);
      SkippedNothing(t2, false);
      assert IntVerb(t2) == NumeralOf(t2);
      var k := |SignOf(t2)| + |NumeralDigits(t2)|;
      var e := NumeralEnd(t1);
      assert e == b + k;
      assert t2[k..] == t1[e..];
    }
  }

  /// Dropping `a` runes and then `b` more drops `a + b`.
  lemma SliceOfSlice<T>(s: seq<T>, a: nat, b: nat)
    requires a + b <= |s|
    ensures s[a..][b..] == s[a + b..] && s[|s| - |s[a + b..]|..] == s[a + b..]
  {
  }

  lemma SuffixTransitive<T>(a: seq<T>, b: seq<T>, c: seq<T>)
    ensures IsSuffix(a, b) && IsSuffix(b, c) ==> IsSuffix(a, c)
  {
    if IsSuffix(a, b) && IsSuffix(b, c) {
      assert c[|c| - |a|..] == c[|c| - |b|..][|b| - |a|..];
    }
  }

  /// The arguments of SEND as a client writes them.
  function MessageText(m: MessageArgs): string
    requires m.len >= 0
  {
    m.target + " " + DecimalText(m.len) + " " + m.body
  }

  /// The length written after one blank and before the blanks `p` reads
  /// back, and the format's final blank takes all of `p`.
  lemma LengthReads(n: nat, p: seq<char>, t4: seq<char>)
    requires n <= MaxInt
    requires |p| > 0 && forall i :: 0 <= i < |p| ==> IsBlank(p[i])
    requires t4 == [] || !IsBlank(t4[0])
    ensures LengthOf([' '] + DecimalText(n) + p + t4) == Parsed(n, t4)
  {
    var num := DecimalText(n);
    var t3 := p + t4;
    var t2 := num + t3;
    assert [' '] + num + p + t4 == [' '] + t2;
    assert FormatSpace([' '] + t2).Done? && FormatSpace([' '] + t2).rest == t2 by {
      assert t2[0] == num[0];
      FormatSpaceReads([' '], t2);
    }
    assert IntVerb(t2) == Done(n, t3) by {
      assert t3[0] == p[0];
      IntVerbRoundTrip(n, t3);
    }
    assert FormatSpace(t3).Done? && FormatSpace(t3).rest == t4 by {
      FormatSpaceReads(p, t4);
    }
    LengthSteps([' '] + t2, t2, n, t3, t4);
  }

  /// `LengthOf` is a format blank, `%d`, then a format blank.
  lemma LengthSteps(t1: seq<char>, t2: seq<char>, n: int, t3: seq<char>, t4: seq<char>)
    requires FormatSpace(t1).Done? && FormatSpace(t1).rest == t2
    requires IntVerb(t2) == Done(n, t3)
    requires FormatSpace(t3).Done? && FormatSpace(t3).rest == t4
    ensures LengthOf(t1) == Parsed(n, t4)
  {
  }

  /// Scanning what `MessageText` wrote, with the length of the body, gives
  /// the arguments back and leaves the rest of the input unread, provided
  /// the body does not start with a blank (those are taken as the
  /// separator).
  lemma ScanMessageRoundTrip(target: string, body: string, tail: seq<char>)
    requires |target| > 0 && forall i :: 0 <= i < |target| ==> NotSpace(target[i])
    requires |body| <= MaxInt
    requires body + tail == [] || !IsBlank((body + tail)[0])
    ensures ScanMessage(MessageText(MessageArgs(target, |body|, body)) + tail)
         == Parsed(MessageArgs(target, |body|, body), tail)
  {
    var t4 := body + tail;
    var t1 := [' '] + DecimalText(|body|) + [' '] + t4;
    MessageTextSplits(target, |body|, [], body);
    assert [] + body == body && [' '] + [] == [' '];
    assert MessageText(MessageArgs(target, |body|, body)) + tail == target + t1;
    StringVerbReads(target, t1);
    LengthReads(|body|, [' '], t4);
    ScanMessageSteps(target + t1, target, t1, |body|, t4);
    var b := BodyToken(t4, |body|, 0);
    assert b == body;
    assert t4[|b|..] == tail;
  }

  /// The text of arguments whose body is `q + body`, cut after the target.
  lemma MessageTextSplits(target: string, n: nat, q: seq<char>, body: string)
    ensures MessageText(MessageArgs(target, n, q + body))
         == target + ([' '] + DecimalText(n) + ([' '] + q) + body)
  {
  }

  /// Once the target and the length are read, what is left is the body.
  lemma ScanMessageSteps(s: seq<char>, target: string, t1: seq<char>, n: int, t4: seq<char>)
    requires StringVerb(s) == Done(target, t1)
    requires LengthOf(t1) == Parsed(n, t4)
    ensures ScanMessage(s) == BodyOf(target, n, t4)
  {
  }

  /// Blanks between the length and the body are taken as separator, so a
  /// body that starts with blanks `q` loses them, and the length, counted
  /// with them, then exceeds what is left: "@bob 3  hi" carries "hi".
  lemma BodyLeadingBlanksDropped(target: string, q: seq<char>, body: string)
    requires |target| > 0 && forall i :: 0 <= i < |target| ==> NotSpace(target[i])
    requires |q| > 0 && forall i :: 0 <= i < |q| ==> IsBlank(q[i])
    requires body == [] || !IsBlank(body[0])
    requires |q + body| <= MaxInt
    ensures ScanMessage(MessageText(MessageArgs(target, |q + body|, q + body)))
         == Parsed(MessageArgs(target, |q + body|, body), [])
  {
    var n := |q + body|;
    var p := [' '] + q;
    var t1 := [' '] + DecimalText(n) + p + body;
    MessageTextSplits(target, n, q, body);
    StringVerbReads(target, t1);
    assert forall i :: 0 <= i < |p| ==> IsBlank(p[i]) by {
      forall i | 0 <= i < |p| ensures IsBlank(p[i]) {
        if i > 0 { assert p[i] == q[i - 1]; }
      }
    }
    LengthReads(n, p, body);
    ScanMessageSteps(target + t1, target, t1, n, body);
    var b := BodyToken(body, n, 0);
    assert b == body;
    assert body[|b|..] == [];
  }

  /// A target with nothing after it: `%d` meets the end of the input.
  lemma ScanMessageNoLength()
    ensures ScanMessage("#x") == Unparsed(CmdError(TargetOrLengthContext, EOF))
  {
    StringVerbReads("#x", []);
    assert "#x" + [] == "#x";
    assert LengthOf([]) == Unparsed(CmdError(TargetOrLengthContext, EOF));
  }

  /// A length that is not a numeral: `%d` expects an integer.
  lemma ScanMessageLengthNotNumber()
    ensures ScanMessage("#x abc") == Unparsed(CmdError(TargetOrLengthContext, ExpectedInteger))
  {
    StringVerbReads("#x", " abc");
    assert "#x" + " abc" == "#x abc";
    FormatSpaceReads(" ", "abc");
    assert " " + "abc" == " abc";
    SkippedNothing("abc", false);
    assert IntVerb("abc") == Failed(ExpectedInteger);
  }

  /// A newline right after the length: the format's last blank does not
  /// match it, so "#x 3\nhi" is refused.
  lemma ScanMessageNewlineAfterLength()
    ensures ScanMessage("#x 3\nhi") == Unparsed(CmdError(TargetOrLengthContext, NewlineMismatch))
  {
    assert "#x" + " " + DecimalText(3) + "\n" + "hi" == "#x 3\nhi";
    ScanMessageNewlineAfter("#x", 3, "hi");
  }

  /// Whatever the target, the length and what follows, a newline right
  /// after the length is refused.
  lemma ScanMessageNewlineAfter(target: string, n: nat, tail: seq<char>)
    requires |target| > 0 && forall i :: 0 <= i < |target| ==> NotSpace(target[i])
    requires n <= MaxInt
    ensures ScanMessage(target + " " + DecimalText(n) + "\n" + tail)
         == Unparsed(CmdError(TargetOrLengthContext, NewlineMismatch))
  {
    var t1 := " " + (DecimalText(n) + ("\n" + tail));
    RegroupedFive(target, " ", DecimalText(n), "\n", tail);
    NumeralThenNewline(n, tail);
    TargetThenLengthFails(target, t1);
  }

  /// The length part of `ScanMessageNewlineAfter`.
  lemma NumeralThenNewline(n: nat, tail: seq<char>)
    requires n <= MaxInt
    ensures LengthOf(" " + (DecimalText(n) + ("\n" + tail)))
         == Unparsed(CmdError(TargetOrLengthContext, NewlineMismatch))
  {
    var t3 := "\n" + tail;
    IntVerbRoundTrip(n, t3);
    NumeralStartsWithDigit(n, t3);
    LengthNewlineAfter(DecimalText(n) + t3, n, t3);
  }

  /// The length part of `ScanMessageNewlineAfterLength`: a length read
  /// with a newline right after it is refused.
  lemma LengthNewlineAfter(t2: seq<char>, n: int, t3: seq<char>)
    requires t2 == [] || !IsBlank(t2[0])
    requires IntVerb(t2) == Done(n, t3)
    requires |t3| > 0 && t3[0] == '\n'
    ensures LengthOf([' '] + t2) == Unparsed(CmdError(TargetOrLengthContext, NewlineMismatch))
  {
    FormatSpaceReads([' '], t2);
    FormatSpaceNewline(t3);
    LengthLastBlankFails([' '] + t2, t2, n, t3);
  }

  /// A length past the largest Go `int` is out of range, and the error
  /// carries its numeral: "#x 9223372036854775808 hi" is refused.
  lemma ScanMessageLengthOverflow(target: string, n: nat, tail: seq<char>)
    requires |target| > 0 && forall i :: 0 <= i < |target| ==> NotSpace(target[i])
    requires n > MaxInt
    requires tail == [] || !IsDigit(tail[0])
    ensures ScanMessage(target + " " + DecimalText(n) + tail)
         == Unparsed(CmdError(TargetOrLengthContext, OutOfRange(DecimalText(n))))
  {
    var t1 := " " + (DecimalText(n) + tail);
    Regrouped(target, " ", DecimalText(n), tail);
    NumeralOverflows(n, tail);
    TargetThenLengthFails(target, t1);
  }

  /// The length part of `ScanMessageLengthOverflow`.
  lemma NumeralOverflows(n: nat, tail: seq<char>)
    requires n > MaxInt
    requires tail == [] || !IsDigit(tail[0])
    ensures LengthOf(" " + (DecimalText(n) + tail))
         == Unparsed(CmdError(TargetOrLengthContext, OutOfRange(DecimalText(n))))
  {
    var ds := DecimalText(n);
    DecimalRoundTrip(n);
    NumeralStartsWithDigit(n, tail);
    FormatSpaceReads(" ", ds + tail);
    IntVerbOverflow(ds, tail);
    LengthNumeralFails(" " + (ds + tail), ds + tail);
  }

  /// `LengthOf` fails where its `%d` does.
  lemma LengthNumeralFails(t1: seq<char>, t2: seq<char>)
    requires FormatSpace(t1).Done? && FormatSpace(t1).rest == t2
    requires IntVerb(t2).Failed?
    ensures LengthOf(t1) == Unparsed(CmdError(TargetOrLengthContext, IntVerb(t2).error))
  {
  }

  /// `LengthOf` fails where the blank after its `%d` does.
  lemma LengthLastBlankFails(t1: seq<char>, t2: seq<char>, n: int, t3: seq<char>)
    requires FormatSpace(t1).Done? && FormatSpace(t1).rest == t2
    requires IntVerb(t2) == Done(n, t3)
    requires FormatSpace(t3).Failed?
    ensures LengthOf(t1) == Unparsed(CmdError(TargetOrLengthContext, FormatSpace(t3).error))
  {
  }

  /// `ScanMessage` fails with the failure of its length.
  lemma TargetThenLengthFails(target: string, t1: seq<char>)
    requires |target| > 0 && forall i :: 0 <= i < |target| ==> NotSpace(target[i])
    requires t1 == [] || IsSpace(t1[0])
    requires LengthOf(t1).Unparsed?
    ensures ScanMessage(target + t1) == Unparsed(LengthOf(t1).error)
  {
    StringVerbReads(target, t1);
  }

  /// Pieces of text, regrouped from the right.
  lemma Regrouped(a: seq<char>, b: seq<char>, c: seq<char>, d: seq<char>)
    ensures a + b + c + d == a + (b + (c + d))
  {
  }

  lemma RegroupedFive(a: seq<char>, b: seq<char>, c: seq<char>, d: seq<char>, e: seq<char>)
    ensures a + b + c + d + e == a + (b + (c + (d + e)))
  {
  }

  /// The scanner object of cmd.go:12-15.
  class RawCmd {
    var kind: string
    var args: string

    constructor ()
      ensures kind == "" && args == ""
    {
      kind := "";
      args := "";
    }

    function Value(): Frame
      reads this
    {
      Frame(kind, args)
    }

    /// Reads a frame from `state` into `kind` and `args`. As in Go, `kind`
    /// is written as soon as its token is read, so a failure in the
    /// arguments leaves the new kind behind; `args` is written only on
    /// success.
    method Scan(state: ScanState) returns (err: Option<CmdError>)
      requires state.Valid()
      modifies this, state
      ensures state.Valid()
      ensures match ScanFrame(old(state.Rest()), state.nlIsSpace)
        case Parsed(f, rest) => err == None && Value() == f && state.Rest() == rest
        case Unparsed(e) => err == Some(e)
      ensures err.Some? ==> args == old(args)
      ensures err.Some? ==> kind == (if StringVerb(old(state.Rest())).Done? then StringVerb(old(state.Rest())).value else old(kind))
    {
      ghost var s := state.Rest();
      var k, e := state.ScanString();
      if e.Some? {
        assert StringVerb(s).Failed?;
        return Some(CmdError(ParseCommandContext, e.value));
      }
      assert StringVerb(s).Done? && StringVerb(s).value == k;
      kind := k;
      ghost var t := state.Rest();
      var a, e' := state.Token(true, NotNewline);
      if e'.Some? {
        assert TokenOf(t, true, state.nlIsSpace, NotNewline).Failed?;
        return Some(CmdError(ParseArgsContext, e'.value));
      }
      args := a;
      ScanFrameSteps(s, state.nlIsSpace, t, Value(), state.Rest());
      return None;
    }
  }

  /// The scanner object of cmd.go:47-51.
  class RawMessageCmd {
    var target: string
    var len: int
    var body: string

    constructor ()
      ensures target == "" && len == 0 && body == ""
    {
      target := "";
      len := 0;
      body := "";
    }

    function Value(): MessageArgs
      reads this
    {
      MessageArgs(target, len, body)
    }

    /// Reads the arguments of SEND from `state` into the three fields. The
    /// body is the token whose predicate counts the runes it is asked about
    /// and accepts while fewer than `len` were asked.
    method Scan(state: ScanState) returns (err: Option<CmdError>)
      requires state.Valid()
      modifies this, state
      ensures state.Valid()
      ensures err.None? ==> ScanMessage(old(state.Rest())) == Parsed(Value(), state.Rest())
      ensures err.Some? ==> ScanMessage(old(state.Rest())) == Unparsed(err.value)
    {
      var m;
      ghost var s := state.Rest();
      m, err := Read(state);
      if err.None? {
        target, len, body := m.target, m.len, m.body;
        assert m == MessageArgs(target, len, body);
      }
    }

    /// The work of `Scan`, before the three fields are set.
    static method Read(state: ScanState) returns (m: MessageArgs, err: Option<CmdError>)
      requires state.Valid()
      modifies state
      ensures state.Valid()
      ensures err.None? ==> ScanMessage(old(state.Rest())) == Parsed(m, state.Rest())
      ensures err.Some? ==> ScanMessage(old(state.Rest())) == Unparsed(err.value)
    {
      m := MessageArgs("", 0, "");
      ghost var s := state.Rest();
      var t, e := state.ScanString();
      if e.Some? {
        return m, Some(CmdError(TargetOrLengthContext, e.value));
      }
      ghost var t1 := state.Rest();
      var l;
      l, err := ScanLength(state);
      if err.Some? {
        return;
      }
      ghost var t4 := state.Rest();
      ScanMessageSteps(s, t, t1, l, t4);
      var b := ReadBody(state, l);
      m := MessageArgs(t, l, b);
    }

    /// The " %d " part of the format.
    static method ScanLength(state: ScanState) returns (l: int, err: Option<CmdError>)
      requires state.Valid()
      modifies state
      ensures state.Valid()
      ensures match LengthOf(old(state.Rest()))
        case Parsed(v, rest) => err == None && l == v && state.Rest() == rest
        case Unparsed(e) => err == Some(e)
    {
      l := 0;
      var e := state.MatchSpace();
      if e.Some? {
        return l, Some(CmdError(TargetOrLengthContext, e.value));
      }
      l, e := state.ScanInt();
      if e.Some? {
        return l, Some(CmdError(TargetOrLengthContext, e.value));
      }
      e := state.MatchSpace();
      if e.Some? {
        return l, Some(CmdError(TargetOrLengthContext, e.value));
      }
      return l, None;
    }
    /// The body token: the predicate is asked once per rune, counts the
    /// questions in `n`, and accepts while `n < len`.
    static method ReadBody(state: ScanState, len: int) returns (b: seq<char>)
      requires state.Valid()
      modifies state
      ensures state.Valid()
      ensures b == BodyToken(old(state.Rest()), len, 0) && state.Rest() == old(state.Rest())[|b|..]
    {
      var input := state.input;
      var start := state.pos;
      var pos := start;
      // `n` counts the questions asked, the refused one included, as the
      // deferred increment does.
      var n: nat := 0;
      while pos < |input|
        invariant start <= pos <= |input|
        invariant n == pos - start
        invariant pos - start <= len || pos == start
      {
        var accept := n < len;
        n := n + 1;
        if !accept {
          break;
        }
        pos := pos + 1;
      }
      b := input[start..pos];
      state.pos := pos;
      ghost var t := input[start..];
      assert BodyToken(t, len, 0) <= t;
      assert b == t[..pos - start];
      assert input[pos..] == t[pos - start..];
    }
  }
}
