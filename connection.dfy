/// client.go: the handler of one connection. It reads a frame, checks its
/// arguments, submits at most one command to the workplace and writes OK or
/// ERR replies back on the connection.
module Connection {
  import opened Util
  import opened Scanning
  import opened Commands

  /// A reply the handler writes on its own connection.
  datatype Reply = Ok | Error(msg: string)

  /// The text of a reply on the wire (`ok` and `err`).
  function ReplyText(r: Reply): string {
    match r
    case Ok => KindText(OK) + "\n"
    case Error(msg) => KindText(Err) + " " + msg + "\n"
  }

  /// Different replies are written differently.
  lemma ReplyTextInjective(a: Reply, b: Reply)
    ensures ReplyText(a) == ReplyText(b) ==> a == b
  {
    if ReplyText(a) == ReplyText(b) {
      if a.Ok? || b.Ok? {
        assert ReplyText(a)[1] == ReplyText(b)[1];
      } else {
        var ta, tb := ReplyText(a), ReplyText(b);
        assert a.msg == ta[4..|ta| - 1];
        assert b.msg == tb[4..|tb| - 1];
      }
    }
  }

  /// The words each step of `Listen` and `handle` puts before an error.
  const ScanCommandContext: string := "failed to scan command"
  const RegisterContext: string := "failed to register"
  const DeleteContext: string := "failed to delete"
  const JoinContext: string := "failed to join"
  const LeaveContext: string := "failed to leave"
  const ChannelsContext: string := "failed to list channels"
  const MembersContext: string := "failed to list members"
  const SendContext: string := "failed to send message"
  const UnknownCommandContext: string := "unknown command"
  const InvalidChannelContext: string := "invalid channel name"
  const InvalidTargetContext: string := "invalid target format: format should start either @ or #"

  /// An error text with the words of the step that reports it in front, as
  /// `fmt.Errorf("...: %w", err)` and `fmt.Sprintf("...: %s", err)` write it.
  function Wrap(context: string, msg: string): string {
    context + ": " + msg
  }

  /// `username.validate` and `channelName.validate` are not part of this
  /// model; a connection is given them. `None` accepts the name, `Some(e)`
  /// refuses it with the error text `e`.
  datatype Validators = Validators(username: string -> Option<string>, channelName: string -> Option<string>)

  /// The checks of `setUsername`, in order; `None` when the name is taken
  /// on.
  function UsernameError(name: string): (r: Option<string>)
    ensures r.None? <==> |name| >= 2 && name[0] == '@'
    ensures name == [] ==> r == Some("username is empty")
    ensures name != [] && name[0] != '@' ==> r == Some("username does not start with @")
    ensures name == "@" ==> r == Some("username expluding @ is empty")
  {
    if name == "" then Some("username is empty")
    else if name[0] != '@' then Some("username does not start with @")
    else if name[1..] == "" then Some("username expluding @ is empty")
    else None
  }

  /// What one handler (`register`, `delete`, `join`, ...) does: the session
  /// identity afterwards, the commands it submits and the error it returns.
  datatype Outcome = Outcome(username: string, submitted: seq<Command>, err: Option<string>)

  /// `register`: the name becomes the identity and is submitted only when
  /// `setUsername` takes it.
  function RegisterOutcome(username: string, conn: Sink, args: string): (o: Outcome)
    ensures o.err == UsernameError(args)
    ensures o.err.None? ==> o.username == args && o.submitted == [RegisterCmd(Member(args, conn))]
    ensures o.err.Some? ==> o.username == username && o.submitted == []
  {
    match UsernameError(args)
    case Some(e) => Outcome(username, [], Some(e))
    case None => Outcome(args, [RegisterCmd(Member(args, conn))], None)
  }

  /// `delete`: the identity as it was is submitted, then cleared. It never
  /// fails.
  function DeleteOutcome(username: string, conn: Sink): (o: Outcome)
    ensures o.err.None? && o.username == ""
    ensures |o.submitted| == 1 && o.submitted[0] == DeleteCmd(Member(username, conn))
  {
    Outcome("", [DeleteCmd(Member(username, conn))], None)
  }

  /// The error `join` and `leave` return for a channel name, if any.
  function ChannelError(v: Validators, ch: string): Option<string> {
    match v.channelName(ch)
    case Some(e) => Some(Wrap(InvalidChannelContext, e))
    case None => None
  }

  /// `join`: submitted only when the channel name validates.
  function JoinOutcome(v: Validators, username: string, conn: Sink, args: string): (o: Outcome)
    ensures o.username == username
    ensures o.err.None? <==> v.channelName(args).None?
    ensures o.submitted == if o.err.None? then [JoinCmd(Member(username, conn), args)] else []
  {
    var err := ChannelError(v, args);
    Outcome(username, if err.None? then [JoinCmd(Member(username, conn), args)] else [], err)
  }

  /// `leave`: submitted only when the channel name validates.
  function LeaveOutcome(v: Validators, username: string, conn: Sink, args: string): (o: Outcome)
    ensures o.username == username
    ensures o.err.None? <==> v.channelName(args).None?
    ensures o.submitted == if o.err.None? then [LeaveCmd(Member(username, conn), args)] else []
  {
    var err := ChannelError(v, args);
    Outcome(username, if err.None? then [LeaveCmd(Member(username, conn), args)] else [], err)
  }

  /// `message`: the arguments are scanned as a `rawMessageCmd`, and a
  /// failure to scan them is reported; otherwise the target decides.
  function MessageOutcome(v: Validators, username: string, conn: Sink, args: string): (o: Outcome)
    ensures o.username == username
    ensures o.submitted == [] <==> o.err.Some?
    ensures ScanMessage(args).Unparsed? ==> o.err == Some(Wrap(ScanCommandContext, CmdErrorText(ScanMessage(args).error)))
  {
    match ScanMessage(args)
    case Unparsed(e) => Outcome(username, [], Some(Wrap(ScanCommandContext, CmdErrorText(e))))
    case Parsed(m, _) => DispatchOutcome(v, username, conn, m.target, m.body)
  }

  /// The rest of `message`: the first rune of the target chooses a channel
  /// message (`#`) or a direct message (`@`), and the name is validated
  /// first. A refused direct-message name is reported with the same words
  /// as a refused channel name.
  function DispatchOutcome(v: Validators, username: string, conn: Sink, target: string, body: string): (o: Outcome)
    requires |target| > 0
    ensures o.username == username
    ensures o.submitted == [] <==> o.err.Some?
    ensures o.err.None? <==> (target[0] == '#' && v.channelName(target).None?) || (target[0] == '@' && v.username(target).None?)
    ensures o.err.None? ==>
      o.submitted == [if target[0] == '#' then MessageInChannelCmd(Member(username, conn), target, body)
                      else DirectMessageCmd(Member(username, conn), target, body)]
    ensures target[0] != '#' && target[0] != '@' ==> o.err == Some(Wrap(InvalidTargetContext, target))
  {
    if target[0] == '#' then
      match v.channelName(target)
      case Some(e) => Outcome(username, [], Some(Wrap(InvalidChannelContext, e)))
      case None => Outcome(username, [MessageInChannelCmd(Member(username, conn), target, body)], None)
    else if target[0] == '@' then
      match v.username(target)
      case Some(e) => Outcome(username, [], Some(Wrap(InvalidChannelContext, e)))
      case None => Outcome(username, [DirectMessageCmd(Member(username, conn), target, body)], None)
    else
      Outcome(username, [], Some(Wrap(InvalidTargetContext, target)))
  }

  /// What handling one frame does to the connection: the identity
  /// afterwards, the commands submitted and the replies written.
  datatype Effect = Effect(username: string, submitted: seq<Command>, replies: seq<Reply>)

  /// The cases of `handle` after REGISTER: an error is reported with the
  /// handler's words, and OK is written in any case.
  function Acknowledged(o: Outcome, context: string): (e: Effect)
    ensures e.username == o.username && e.submitted == o.submitted
    ensures e.replies == if o.err.Some? then [Error(Wrap(context, o.err.value)), Ok] else [Ok]
  {
    Effect(o.username, o.submitted, (if o.err.Some? then [Error(Wrap(context, o.err.value))] else []) + [Ok])
  }

  /// The kinds `handle` has a case for.
  predicate IsRequest(k: Kind) {
    k != OK && k != Err
  }

  /// The frames `handle` answers with OK last: a request kind, and for
  /// REGISTER a username that is taken on.
  predicate EndsWithOk(f: Frame) {
    && ParseKind(f.kind).Some? && IsRequest(ParseKind(f.kind).value)
    && (ParseKind(f.kind).value == Register ==> UsernameError(f.args).None?)
  }

  /// The SEND case of `handle`.
  function SendEffect(v: Validators, username: string, conn: Sink, args: string): (e: Effect)
    ensures e.username == username && |e.submitted| <= 1
    ensures e.replies == [Ok] || (|e.replies| == 2 && e.replies[1] == Ok)
    ensures e.submitted != [] <==> e.replies == [Ok]
  {
    Acknowledged(MessageOutcome(v, username, conn, args), SendContext)
  }

  /// `handle`: the switch on the kind of a scanned frame.
  function HandleEffect(v: Validators, username: string, conn: Sink, f: Frame): (e: Effect)
    ensures |e.submitted| <= 1
    ensures 1 <= |e.replies| <= 2
    ensures e.submitted != [] <==> e.replies == [Ok]
    ensures EndsWithOk(f) ==> e.replies[|e.replies| - 1] == Ok
    ensures e.replies[|e.replies| - 1] == Ok ==> EndsWithOk(f)
    ensures ParseKind(f.kind).None? || !IsRequest(ParseKind(f.kind).value) ==>
      e == Effect(username, [], [Error(Wrap(UnknownCommandContext, f.kind))])
    ensures e.username != username ==>
      (ParseKind(f.kind) == Some(Register) && e.username == f.args) || (ParseKind(f.kind) == Some(Delete) && e.username == "")
  {
    match ParseKind(f.kind)
    case Some(Register) =>
      var o := RegisterOutcome(username, conn, f.args);
      if o.err.Some? then Effect(o.username, [], [Error(Wrap(RegisterContext, o.err.value))])
      else Effect(o.username, o.submitted, [Ok])
    case Some(Delete) => Acknowledged(DeleteOutcome(username, conn), DeleteContext)
    case Some(Join) => Acknowledged(JoinOutcome(v, username, conn, f.args), JoinContext)
    case Some(Leave) => Acknowledged(LeaveOutcome(v, username, conn, f.args), LeaveContext)
    case Some(Channels) => Acknowledged(Outcome(username, [ChannelsCmd(Member(username, conn))], None), ChannelsContext)
    case Some(Members) => Acknowledged(Outcome(username, [MembersCmd(Member(username, conn))], None), MembersContext)
    case Some(Send) => SendEffect(v, username, conn, f.args)
    case Some(OK) | Some(Err) | None => Effect(username, [], [Error(Wrap(UnknownCommandContext, f.kind))])
  }

  /// One pass of `Listen`: `Fscanf` with "%v\n" skips white space other
  /// than newlines, scans a `rawCmd` and hands it to `handle`; a failure is
  /// reported and nothing else happens.
  function StepEffect(v: Validators, username: string, conn: Sink, input: seq<char>): (e: Effect)
    ensures |e.submitted| <= 1
    ensures e.submitted != [] <==> e.replies == [Ok]
    ensures e.username != username ==> |e.submitted| == 1
  {
    match SkippedSpace(input, false)
    case Failed(err) => Effect(username, [], [Error(Wrap(ScanCommandContext, ErrorText(err)))])
    case Done(_, t) => FrameEffect(v, username, conn, ScanFrame(t, false))
  }

  /// The rest of a pass once the frame has been scanned.
  function FrameEffect(v: Validators, username: string, conn: Sink, r: Parse<Frame>): (e: Effect)
    ensures |e.submitted| <= 1
    ensures e.submitted != [] <==> e.replies == [Ok]
    ensures e.username != username ==> |e.submitted| == 1
  {
    match r
    case Unparsed(err) => Effect(username, [], [Error(Wrap(ScanCommandContext, CmdErrorText(err)))])
    case Parsed(f, _) => HandleEffect(v, username, conn, f)
  }

  /// REGISTER then DELETE on one connection: the name is taken on, both
  /// commands carry it, and the connection ends without an identity.
  lemma RegisterThenDelete(v: Validators, username: string, conn: Sink, name: string)
    requires UsernameError(name).None?
    ensures var e1 := HandleEffect(v, username, conn, Frame("REGISTER", name));
            var e2 := HandleEffect(v, e1.username, conn, Frame("DELETE", ""));
            e1.submitted + e2.submitted == [RegisterCmd(Member(name, conn)), DeleteCmd(Member(name, conn))]
            && e1.replies + e2.replies == [Ok, Ok] && e2.username == ""
  {
    ParseKindRoundTrip(Register);
    ParseKindRoundTrip(Delete);
  }

  /// A refused REGISTER writes one ERR and no OK, submits nothing, and
  /// keeps the identity.
  lemma RegisterRefused(v: Validators, username: string, conn: Sink, name: string)
    requires UsernameError(name).Some?
    ensures HandleEffect(v, username, conn, Frame("REGISTER", name))
         == Effect(username, [], [Error(Wrap(RegisterContext, UsernameError(name).value))])
  {
    ParseKindRoundTrip(Register);
  }

  /// Every other refused request writes ERR and then OK.
  lemma JoinRefusedStillAcknowledged(v: Validators, username: string, conn: Sink, ch: string)
    requires v.channelName(ch).Some?
    ensures HandleEffect(v, username, conn, Frame("JOIN", ch))
         == Effect(username, [], [Error(Wrap(JoinContext, Wrap(InvalidChannelContext, v.channelName(ch).value))), Ok])
  {
    ParseKindRoundTrip(Join);
  }

  /// Nothing checks that the connection has registered: without an
  /// identity, JOIN submits a join for the empty name.
  lemma JoinWithoutIdentity(v: Validators, conn: Sink, ch: string)
    requires v.channelName(ch).None?
    ensures HandleEffect(v, "", conn, Frame("JOIN", ch)) == Effect("", [JoinCmd(Member("", conn), ch)], [Ok])
  {
    ParseKindRoundTrip(Join);
  }

  /// The reply kinds are not requests: a frame of kind OK or ERR is an
  /// unknown command.
  lemma ReplyKindsUnknown(v: Validators, username: string, conn: Sink, args: string)
    ensures HandleEffect(v, username, conn, Frame("OK", args)).replies == [Error(Wrap(UnknownCommandContext, "OK"))]
    ensures HandleEffect(v, username, conn, Frame("ERR", args)).replies == [Error(Wrap(UnknownCommandContext, "ERR"))]
  {
    ParseKindRoundTrip(OK);
    ParseKindRoundTrip(Err);
  }

  /// A line holding only a kind, such as "DELETE\n", is refused by
  /// `Listen`: skipping space before the arguments meets the newline.
  lemma BareLineRefused(v: Validators, username: string, conn: Sink, kind: string)
    requires WellFormedFrame(Frame(kind, ""))
    ensures StepEffect(v, username, conn, kind + "\n")
         == Effect(username, [], [Error(Wrap(ScanCommandContext, CmdErrorText(CmdError(ParseArgsContext, UnexpectedNewline))))])
  {
    var s := kind + "\n";
    assert s[0] == kind[0];
    assert SkippedSpace(s, false) == Done((), s);
    ScanFrameBareLine(kind);
    var err := CmdError(ParseArgsContext, UnexpectedNewline);
    assert StepEffect(v, username, conn, s) == Effect(username, [], [Error(Wrap(ScanCommandContext, CmdErrorText(err)))]);
  }

  /// The arguments of SEND as a client writes them form a frame with kind
  /// SEND when the body has no newline.
  lemma SendFrameWellFormed(target: string, body: string)
    requires |target| > 0 && forall i :: 0 <= i < |target| ==> NotSpace(target[i])
    requires |body| <= MaxInt
    requires forall i :: 0 <= i < |body| ==> NotNewline(body[i])
    ensures WellFormedFrame(Frame("SEND", MessageText(MessageArgs(target, |body|, body))))
  {
    var args := MessageText(MessageArgs(target, |body|, body));
    var num := DecimalText(|body|);
    assert args == target + " " + num + " " + body;
    forall i | 0 <= i < |args| ensures NotNewline(args[i]) {
      if i < |target| {
        assert args[i] == target[i];
      } else if i < |target| + 1 + |num| + 1 {
        if |target| < i <= |target| + |num| {
          assert args[i] == num[i - |target| - 1];
        }
      } else {
        assert args[i] == body[i - |target| - |num| - 2];
      }
    }
    assert args[0] == target[0];
  }

  /// A line made of leading blanks, a frame's kind, a run of blanks and
  /// the frame's arguments, then a newline, is handed to `handle` as that
  /// frame.
  lemma StepReadsLine(v: Validators, username: string, conn: Sink, lead: seq<char>, f: Frame, w: seq<char>)
    requires forall i :: 0 <= i < |lead| ==> IsBlank(lead[i])
    requires WellFormedFrame(f) && f.args != []
    requires w != [] && forall i :: 0 <= i < |w| ==> IsBlank(w[i])
    ensures StepEffect(v, username, conn, lead + f.kind + w + f.args + "\n") == HandleEffect(v, username, conn, f)
  {
    var line := f.kind + w + f.args + "\n";
    assert lead + f.kind + w + f.args + "\n" == lead + line;
    assert line[0] == f.kind[0];
    SkippedBlanks(lead, line, false);
    ScanFrameRoundTrip(f, w, "\n", false);
  }

  /// In particular a line as a client writes it, a frame's text and a
  /// newline, is handed to `handle` as that frame.
  lemma StepReadsFrameText(v: Validators, username: string, conn: Sink, f: Frame)
    requires WellFormedFrame(f) && f.args != []
    ensures StepEffect(v, username, conn, FrameText(f) + "\n") == HandleEffect(v, username, conn, f)
  {
    var lead, w := [], [' '];
    assert IsBlank(w[0]);
    assert FrameText(f) + "\n" == lead + f.kind + w + f.args + "\n";
    StepReadsLine(v, username, conn, lead, f, w);
  }

  /// SEND whose arguments scan to a channel target whose name validates
  /// submits the body to that channel and writes OK.
  lemma SendToChannelHandled(v: Validators, username: string, conn: Sink, f: Frame, m: MessageArgs, rest: seq<char>)
    requires ParseKind(f.kind) == Some(Send)
    requires ScanMessage(f.args) == Parsed(m, rest)
    requires m.target[0] == '#' && v.channelName(m.target).None?
    ensures HandleEffect(v, username, conn, f) == Effect(username, [MessageInChannelCmd(Member(username, conn), m.target, m.body)], [Ok])
  {
    assert MessageOutcome(v, username, conn, f.args) == DispatchOutcome(v, username, conn, m.target, m.body);
    HandleSend(v, username, conn, f);
  }

  /// SEND whose arguments scan to a direct-message target whose name
  /// validates submits the body to that user and writes OK.
  lemma SendDirectHandled(v: Validators, username: string, conn: Sink, f: Frame, m: MessageArgs, rest: seq<char>)
    requires ParseKind(f.kind) == Some(Send)
    requires ScanMessage(f.args) == Parsed(m, rest)
    requires m.target[0] == '@' && v.username(m.target).None?
    ensures HandleEffect(v, username, conn, f) == Effect(username, [DirectMessageCmd(Member(username, conn), m.target, m.body)], [Ok])
  {
    assert MessageOutcome(v, username, conn, f.args) == DispatchOutcome(v, username, conn, m.target, m.body);
    HandleSend(v, username, conn, f);
  }

  /// SEND whose target starts with neither `#` nor `@` submits nothing,
  /// reports the target, and still writes OK.
  lemma SendInvalidTargetHandled(v: Validators, username: string, conn: Sink, f: Frame, m: MessageArgs, rest: seq<char>)
    requires ParseKind(f.kind) == Some(Send)
    requires ScanMessage(f.args) == Parsed(m, rest)
    requires m.target[0] != '#' && m.target[0] != '@'
    ensures HandleEffect(v, username, conn, f)
         == Effect(username, [], [Error(Wrap(SendContext, Wrap(InvalidTargetContext, m.target))), Ok])
  {
    assert MessageOutcome(v, username, conn, f.args) == DispatchOutcome(v, username, conn, m.target, m.body);
    SendRefused(v, username, conn, f, Wrap(InvalidTargetContext, m.target));
  }

  /// SEND whose arguments do not scan submits nothing, reports the scan
  /// failure, and still writes OK.
  lemma SendUnscannedHandled(v: Validators, username: string, conn: Sink, f: Frame, e: CmdError)
    requires ParseKind(f.kind) == Some(Send)
    requires ScanMessage(f.args) == Unparsed(e)
    ensures HandleEffect(v, username, conn, f)
         == Effect(username, [], [Error(Wrap(SendContext, Wrap(ScanCommandContext, CmdErrorText(e)))), Ok])
  {
    SendRefused(v, username, conn, f, Wrap(ScanCommandContext, CmdErrorText(e)));
  }

  /// SEND that `message` refuses with `msg` is acknowledged with that error
  /// and OK.
  lemma SendRefused(v: Validators, username: string, conn: Sink, f: Frame, msg: string)
    requires ParseKind(f.kind) == Some(Send)
    requires MessageOutcome(v, username, conn, f.args) == Outcome(username, [], Some(msg))
    ensures HandleEffect(v, username, conn, f) == Effect(username, [], [Error(Wrap(SendContext, msg)), Ok])
  {
    HandleSend(v, username, conn, f);
  }

  /// `handle` passes the arguments of SEND to `message` and acknowledges.
  lemma HandleSend(v: Validators, username: string, conn: Sink, f: Frame)
    requires ParseKind(f.kind) == Some(Send)
    ensures HandleEffect(v, username, conn, f) == Acknowledged(MessageOutcome(v, username, conn, f.args), SendContext)
  {
  }

  /// A SEND line to a channel, written with the length of its body, makes
  /// the connection submit that body to that channel and write OK, when
  /// the body has no newline and does not start with a blank.
  lemma SendLineRoundTrip(v: Validators, username: string, conn: Sink, target: string, body: string)
    requires |target| > 0 && target[0] == '#' && forall i :: 0 <= i < |target| ==> NotSpace(target[i])
    requires v.channelName(target).None?
    requires |body| <= MaxInt
    requires body == [] || !IsBlank(body[0])
    requires forall i :: 0 <= i < |body| ==> NotNewline(body[i])
    ensures StepEffect(v, username, conn, FrameText(Frame("SEND", MessageText(MessageArgs(target, |body|, body)))) + "\n")
         == Effect(username, [MessageInChannelCmd(Member(username, conn), target, body)], [Ok])
  {
    var m := MessageArgs(target, |body|, body);
    SendFrameReads(target, body);
    SendLineHandled(v, username, conn, Frame("SEND", MessageText(m)), m);
  }

  /// The frame of a SEND line to `target` is well formed and its arguments
  /// scan back to the target, the length and the body.
  lemma SendFrameReads(target: string, body: string)
    requires |target| > 0 && forall i :: 0 <= i < |target| ==> NotSpace(target[i])
    requires |body| <= MaxInt
    requires body == [] || !IsBlank(body[0])
    requires forall i :: 0 <= i < |body| ==> NotNewline(body[i])
    ensures var m := MessageArgs(target, |body|, body);
      var f := Frame("SEND", MessageText(m));
      && WellFormedFrame(f) && f.args != [] && ParseKind(f.kind) == Some(Send)
      && ScanMessage(f.args) == Parsed(m, [])
  {
    assert KindText(Send) == "SEND";
    ParseKindRoundTrip(Send);
    var m := MessageArgs(target, |body|, body);
    SendFrameWellFormed(target, body);
    ScanMessageRoundTrip(target, body, []);
    assert MessageText(m) + [] == MessageText(m);
  }

  /// A SEND line whose arguments scan to a channel target that validates
  /// is submitted and acknowledged.
  lemma SendLineHandled(v: Validators, username: string, conn: Sink, f: Frame, m: MessageArgs)
    requires WellFormedFrame(f) && f.args != [] && ParseKind(f.kind) == Some(Send)
    requires ScanMessage(f.args) == Parsed(m, [])
    requires m.target[0] == '#' && v.channelName(m.target).None?
    ensures StepEffect(v, username, conn, FrameText(f) + "\n")
         == Effect(username, [MessageInChannelCmd(Member(username, conn), m.target, m.body)], [Ok])
  {
    StepReadsFrameText(v, username, conn, f);
    SendToChannelHandled(v, username, conn, f, m, []);
  }
  /// The connection of client.go:16-20. `conn` identifies the connection,
  /// `cmds` holds the commands submitted to the workplace in order, and
  /// `written` the replies written on the connection in order.
  class Client {
    const conn: Sink
    const validators: Validators
    var username: string
    var cmds: seq<Command>
    var written: seq<Reply>

    /// `NewClient`.
    constructor (conn: Sink, validators: Validators)
      ensures this.conn == conn && this.validators == validators
      ensures username == "" && cmds == [] && written == []
    {
      this.conn := conn;
      this.validators := validators;
      username := "";
      cmds := [];
      written := [];
    }

    /// The member this connection stands for in the commands it submits.
    function Me(): Member
      reads this
    {
      Member(username, conn)
    }

    /// `setUsername`.
    method SetUsername(name: string) returns (err: Option<string>)
      modifies this
      ensures err == UsernameError(name)
      ensures username == if err.None? then name else old(username)
      ensures cmds == old(cmds) && written == old(written)
    {
      if name == "" {
        return Some("username is empty");
      }
      if name[0] != '@' {
        return Some("username does not start with @");
      }
      if name[1..] == "" {
        return Some("username expluding @ is empty");
      }
      username := name;
      return None;
    }

    /// `register`.
    method Register(args: string) returns (err: Option<string>)
      modifies this
      ensures var o := RegisterOutcome(old(username), conn, args);
        username == o.username && cmds == old(cmds) + o.submitted && err == o.err
      ensures written == old(written)
    {
      err := SetUsername(args);
      if err.Some? {
        return;
      }
      cmds := cmds + [RegisterCmd(Me())];
    }

    /// `delete`.
    method Delete() returns (err: Option<string>)
      modifies this
      ensures var o := DeleteOutcome(old(username), conn);
        username == o.username && cmds == old(cmds) + o.submitted && err == o.err
      ensures written == old(written)
    {
      cmds := cmds + [DeleteCmd(Me())];
      username := "";
      return None;
    }

    /// `join`.
    method Join(args: string) returns (err: Option<string>)
      modifies this
      ensures var o := JoinOutcome(validators, old(username), conn, args);
        username == o.username && cmds == old(cmds) + o.submitted && err == o.err
      ensures written == old(written)
    {
      var e := validators.channelName(args);
      if e.Some? {
        return Some(Wrap(InvalidChannelContext, e.value));
      }
      cmds := cmds + [JoinCmd(Me(), args)];
      return None;
    }

    /// `leave`.
    method Leave(args: string) returns (err: Option<string>)
      modifies this
      ensures var o := LeaveOutcome(validators, old(username), conn, args);
        username == o.username && cmds == old(cmds) + o.submitted && err == o.err
      ensures written == old(written)
    {
      var e := validators.channelName(args);
      if e.Some? {
        return Some(Wrap(InvalidChannelContext, e.value));
      }
      cmds := cmds + [LeaveCmd(Me(), args)];
      return None;
    }

    /// `channels`.
    method Channels() returns (err: Option<string>)
      modifies this
      ensures username == old(username) && cmds == old(cmds) + [ChannelsCmd(Me())] && err == None
      ensures written == old(written)
    {
      cmds := cmds + [ChannelsCmd(Me())];
      return None;
    }

    /// `members`.
    method Members() returns (err: Option<string>)
      modifies this
      ensures username == old(username) && cmds == old(cmds) + [MembersCmd(Me())] && err == None
      ensures written == old(written)
    {
      cmds := cmds + [MembersCmd(Me())];
      return None;
    }

    /// `message`: `Sscan` of the arguments (newlines count as space there)
    /// into a `rawMessageCmd`, then the dispatch on the target.
    method Message(args: string) returns (err: Option<string>)
      modifies this
      ensures var o := MessageOutcome(validators, old(username), conn, args);
        username == o.username && cmds == old(cmds) + o.submitted && err == o.err
      ensures written == old(written)
    {
      var state := new ScanState(args, true);
      var raw := new RawMessageCmd();
      var e := raw.Scan(state);
      if e.Some? {
        return Some(Wrap(ScanCommandContext, CmdErrorText(e.value)));
      }
      assert ScanMessage(args).value == raw.Value();
      err := Dispatch(raw.target, raw.body);
    }

    /// The dispatch of `message` on the scanned target.
    method Dispatch(target: string, body: string) returns (err: Option<string>)
      requires |target| > 0
      modifies this
      ensures var o := DispatchOutcome(validators, old(username), conn, target, body);
        username == o.username && cmds == old(cmds) + o.submitted && err == o.err
      ensures written == old(written)
    {
      if target[0] == '#' {
        var ve := validators.channelName(target);
        if ve.Some? {
          return Some(Wrap(InvalidChannelContext, ve.value));
        }
        cmds := cmds + [MessageInChannelCmd(Me(), target, body)];
        return None;
      }
      if target[0] == '@' {
        var ve := validators.username(target);
        if ve.Some? {
          return Some(Wrap(InvalidChannelContext, ve.value));
        }
        cmds := cmds + [DirectMessageCmd(Me(), target, body)];
        return None;
      }
      return Some(Wrap(InvalidTargetContext, target));
    }

    /// `ok`.
    method WriteOk()
      modifies this
      ensures written == old(written) + [Ok] && username == old(username) && cmds == old(cmds)
      ensures ReplyText(written[|written| - 1]) == "OK\n"
    {
      written := written + [Ok];
    }

    /// `err`.
    method WriteErr(msg: string)
      modifies this
      ensures written == old(written) + [Error(msg)] && username == old(username) && cmds == old(cmds)
      ensures ReplyText(written[|written| - 1]) == "ERR " + msg + "\n"
    {
      written := written + [Error(msg)];
    }

    /// After a handler: its error, if any, with the handler's words, then
    /// OK.
    method Acknowledge(err: Option<string>, context: string)
      modifies this
      ensures written == old(written) + Acknowledged(Outcome(username, [], err), context).replies
      ensures username == old(username) && cmds == old(cmds)
    {
      if err.Some? {
        WriteErr(Wrap(context, err.value));
      }
      WriteOk();
    }

    /// `handle`.
    method Handle(f: Frame)
      modifies this
      ensures var e := HandleEffect(validators, old(username), conn, f);
        username == e.username && cmds == old(cmds) + e.submitted && written == old(written) + e.replies
    {
      var k := ParseKind(f.kind);
      match k
      case Some(Register) =>
        var err := Register(f.args);
        if err.Some? {
          WriteErr(Wrap(RegisterContext, err.value));
          return;
        }
        WriteOk();
      case Some(Delete) =>
        var err := Delete();
        Acknowledge(err, DeleteContext);
      case Some(Join) =>
        var err := Join(f.args);
        Acknowledge(err, JoinContext);
      case Some(Leave) =>
        var err := Leave(f.args);
        Acknowledge(err, LeaveContext);
      case Some(Channels) =>
        var err := Channels();
        Acknowledge(err, ChannelsContext);
      case Some(Members) =>
        var err := Members();
        Acknowledge(err, MembersContext);
      case Some(Send) =>
        var err := Message(f.args);
        Acknowledge(err, SendContext);
      case _ =>
        WriteErr(Wrap(UnknownCommandContext, f.kind));
    }

    /// One pass of `Listen` over the input still to be read on the
    /// connection.
    method Step(input: seq<char>)
      modifies this
      ensures var e := StepEffect(validators, old(username), conn, input);
        username == e.username && cmds == old(cmds) + e.submitted && written == old(written) + e.replies
    {
      var f, err := ReadCommand(input);
      if err.Some? {
        WriteErr(err.value);
        return;
      }
      Handle(f);
    }

    /// The `Fscanf` of "%v\n" into a `rawCmd`: leading white space other
    /// than newlines is skipped, then the frame is scanned; a failure comes
    /// back as the message `Listen` reports.
    static method ReadCommand(input: seq<char>) returns (f: Frame, err: Option<string>)
      ensures match SkippedSpace(input, false)
        case Failed(e) => err == Some(Wrap(ScanCommandContext, ErrorText(e)))
        case Done(_, t) =>
          match ScanFrame(t, false)
          case Unparsed(e) => err == Some(Wrap(ScanCommandContext, CmdErrorText(e)))
          case Parsed(g, _) => err == None && f == g
    {
      f := Frame("", "");
      var state := new ScanState(input, false);
      var e := state.SkipSpace(false);
      if e.Some? {
        return f, Some(Wrap(ScanCommandContext, ErrorText(e.value)));
      }
      var raw := new RawCmd();
      var scanErr := raw.Scan(state);
      if scanErr.Some? {
        return f, Some(Wrap(ScanCommandContext, CmdErrorText(scanErr.value)));
      }
      return raw.Value(), None;
    }
  }
}
