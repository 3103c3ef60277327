# go-slck core, modelled in Dafny

go-slck is a line-oriented chat server. Every connection is served by a
`Client`. It reads one frame per line: a kind token, then the rest of the
line as arguments. The client checks the arguments and submits at most one
command to the shared `workplace`. It then writes `OK` or `ERR <msg>` back
on its connection. The workplace keeps two maps, username → member and
channel name → channel, and applies the commands one at a time. Some
commands write to members: error notices, listings, channel and direct
messages.

The model has five modules:

- `Util` (util.dfy): `Option`, which stands for Go's `error` return, and a
  suffix predicate.
- `Scanning` (scanning.dfy): the parts of Go's `fmt` scanning that the
  parsers rely on. These are skipping white space, `Token`, the `%s` and
  `%d` verbs, and a blank in a `Fscanf` format. Each is a pure function from
  the remaining input to a value and the rest of the input. The class
  `ScanState` consumes its input one rune at a time, and each of its
  methods is proved to compute the matching function.
- `Commands` (cmd.go): the kinds and the eight commands, as datatypes. It
  also has the two scanners, `rawCmd` (a frame) and `rawMessageCmd` (the
  arguments of SEND). Each scanner is a pure specification (`ScanFrame`,
  `ScanMessage`) plus a class whose `Scan` method assigns its fields and is
  proved against that specification. The round trips are proved on the
  specifications.
- `Registry` (workplace.go): the class `Workplace`. Its `members` and
  `channels` map fields are updated in place. Its `outbox` sequence stands
  for the writes to members. Each method is proved against a pure function
  of the old state (`Registered`, `Deleted`, `Joined`, `Left`). `Next` and
  `Run` apply one command and a sequence of commands. `Emits` relates a
  command to the deliveries it may write; the map iteration order is left
  open.
- `Connection` (client.go): the class `Client`. Its `username` is the
  session identity, `cmds` holds the commands submitted to the workplace in
  order, and `written` holds the replies written on the connection. Each
  handler is proved against a pure `Outcome` function, and `handle` against
  `HandleEffect`. One pass of `Listen` is proved against `StepEffect`.

The repository's files come from different revisions. The model unifies
them as follows:

- The kinds are cmd.go's: REGISTER, DELETE, JOIN, LEAVE, CHANNELS, MEMBERS,
  SEND, OK and ERR. client.go switches on the names of slck.go, where the
  message kind is called MESSAGE and DELETE and MEMBERS do not exist.
- The commands carry the fields of cmd.go:72-124. A connection's identity is
  a `Member`: its username and the connection (`Sink`) it writes to.
- `username.validate` and `channelName.validate` are given to a `Client` as
  functions (`Validators`). The only naming rule written out in the
  repository is `setUsername`'s.

### Behaviour the code has, which a reader might not expect

- No "not registered" check exists. JOIN, SEND and the other requests are
  submitted for the empty name (`JoinWithoutIdentity`,
  `JoinWithoutRegister`).
- For every request except REGISTER, an error is followed by `OK`, because
  there is no early return (`HandleEffect`, `JoinRefusedStillAcknowledged`).
- A direct message to a refused username reports "invalid channel name".
- OK and ERR are kinds of cmd.go but have no case in `handle`, so a frame of
  either kind is an unknown command (`ReplyKindsUnknown`).
- `Listen` reads with `Fscanf("%v\n")`, so a newline is not white space
  there. `rawCmd.Scan` skips white space before the arguments, so a line that
  holds only a kind, such as `DELETE\n`, is refused with "failed to scan
  command: failed to parse args: unexpected newline" (`BareLineRefused`).
  A kind needs at least one argument character after it on the line.
- A body read through `Listen` cannot contain a newline, because the frame
  ends at the first one.
- The SEND arguments are read by `Sscan`, but target and length come from
  the nested `Fscanf("%s %d ")`, where a newline is not white space (it is
  an error before either value). Only the body token follows the outer
  `Sscan`, and it skips nothing. The blank at the end of that format
  swallows every blank before the body. A body that starts with blanks therefore loses them, and the
  length, counted with them, then exceeds what is left
  (`BodyLeadingBlanksDropped`).
- The body is at most `len` runes long, not exactly `len`: fewer remain when
  the input is shorter.

## Model

| member | source | states |
|---|---|---|
| Scanning.SkippedSpace | client.go:30 | `SkipSpace` drops only white space, and in `Fscanf` mode never a newline. It fails only in `Fscanf` mode, with "unexpected newline". Otherwise the rest is a suffix that does not start with white space. |
| Scanning.SkippedSpaceFails | client.go:30 | `SkipSpace` fails exactly in `Fscanf` mode when the first rune after the leading blanks is a newline. |
| Scanning.StringVerb | cmd.go:18 | `%s` fails exactly when skipping white space meets a newline ("unexpected newline") or leaves nothing (EOF). Otherwise it reads the longest non-empty run of non-space runes right after the skipped white space. |
| Scanning.StringVerbReads | cmd.go:18 | `%s` reads back a whole non-space token followed by white space or the end. |
| Scanning.FormatSpace | cmd.go:54 | A format blank succeeds exactly when the input is empty or starts with a blank. It then consumes only blanks and stops before a non-blank. |
| Scanning.FormatSpaceReads | cmd.go:54 | A format blank consumes the whole run of blanks before a non-blank. |
| Scanning.IntVerb | cmd.go:54 | `%d` fails with "unexpected newline" where skipping white space does. Otherwise it is exactly `NumeralOf` of what the skipping leaves. A value lies in Go's 64-bit `int` range, and the rest does not start with a digit. |
| Scanning.NumeralOf | cmd.go:54 | A numeral is read exactly when at least one digit follows the optional sign and its signed value fits Go's 64-bit `int`. The value is that signed value, and the rest starts right after the digits. The failures are EOF for an empty input or a lone sign, "expected integer" when a non-digit follows the sign, and "out of range" naming the sign and digits. |
| Scanning.DigitsOf | cmd.go:54 | After the sign, `%d` succeeds exactly when there is at least one digit and the signed value of the digit run fits Go's 64-bit `int`. It then yields that value and leaves the input after the digits. Its failures are EOF at the end, "expected integer" at a non-digit, and "out of range" naming the sign and the digits. |
| Scanning.DecimalRoundTrip | cmd.go:54 | Reading back the decimal numeral of `n` gives `n`. |
| Scanning.IntVerbRoundTrip | cmd.go:54 | `%d` reads back the numeral of every non-negative `int` and leaves the input after it. |
| Scanning.IntVerbMinus | cmd.go:54 | `%d` reads a minus sign and any digits whose value is at most 2^63 as the negative value, and leaves the input after the digits. |
| Scanning.IntVerbOverflow | cmd.go:54 | Digits whose value exceeds the largest `int` are refused as "out of range", and the error names those digits. |
| Scanning.FormatSpaceNewline | cmd.go:54 | A format blank refuses a newline with "newline in input does not match format". |
| Scanning.TokenOf | cmd.go:21-23 | `Token` fails exactly when it was asked to skip white space and `SkipSpace` fails (a newline in `Fscanf` mode). Otherwise the token and what follows it are exactly what skipping leaves, or the whole input when nothing is skipped, and the token is the longest run the predicate accepts. |
| Scanning.SkippedLeadingBlanks | cmd.go:18 | In `Fscanf` mode a successful `SkipSpace` drops exactly the leading run of blanks. |
| Scanning.SkippedBlanks | cmd.go:21 | In either mode, `SkipSpace` drops any run of blanks that precedes a rune that is not white space. |
| Scanning.ScanState.ReadWhile | cmd.go:21-23 | The rune-by-rune loop of `Token` returns `TakeWhile` of the rest and advances past it. |
| Scanning.ScanState.SkipSpace | cmd.go:21 | The loop returns the error `SkippedSpace` gives, or advances to the rest it gives. |
| Scanning.ScanState.Token | cmd.go:21-23 | The method agrees with `TokenOf` on the value, the error and the new position. |
| Scanning.ScanState.ScanString | cmd.go:18 | The method agrees with `StringVerb`. |
| Scanning.ScanState.MatchSpace | cmd.go:54 | The method agrees with `FormatSpace`. |
| Scanning.ScanState.ScanInt | cmd.go:54 | The method agrees with `IntVerb`. |
| Scanning.ScanState.ScanDigits | cmd.go:54 | The method agrees with `DigitsOf`, the digits after the optional sign. |
| Commands.ParseKind | cmd.go:35-45 | A token names a kind exactly when it is that kind's text. No kind is named by any other token. |
| Commands.ParseKindRoundTrip | cmd.go:35-45 | The nine kind tokens are pairwise distinct: reading back a kind's token gives that kind. |
| Commands.ScanFrame | cmd.go:17-31 | The kind is a non-empty, space-free token that starts right after the leading blanks. Only white space separates it from the args; newlines count as such only in `Sscan` mode, and the gap is empty only at the end of the input. The args contain no newline, do not start with white space, and run to the next newline or the end. In `Sscan` mode, empty args mean the input is used up. A failure is reported as "failed to parse command" or "failed to parse args". |
| Commands.FrameLayout | cmd.go:17-26 | The kind token followed by the args token lies in the input as leading blanks, the kind, white space (newlines only in `Sscan` mode), the args and the rest. |
| Commands.ArgsTokenShape | cmd.go:21-26 | A token read by the args predicate after skipping space contains no newline and does not start with white space. It is followed by a newline or the end, and in `Sscan` mode an empty token is followed by nothing. |
| Commands.ArgsTokenReads | cmd.go:21-26 | After any run of blanks, the args token reads exactly the newline-free args and stops at the newline or at the end. |
| Commands.ScanFrameRoundTrip | cmd.go:17-31 | `K + w + A + tail` scans back to `(K, A)` and leaves `tail`. Here `K` is any space-free kind, `w` any non-empty run of blanks, and `A` any newline-free args that do not start with white space. `tail` is empty or starts with a newline, and it must be empty when `A` is. |
| Commands.ScanJoinAlice | slck_test.go:8-26 | `Sscan` of "JOIN alice" reads kind JOIN and args "alice". |
| Commands.ScanFrameKindOnly | cmd.go:21-30 | A kind at the end of the input scans with empty args (EOF is not an error). |
| Commands.ScanFrameBareLine | cmd.go:21-26 | In `Fscanf` mode, a kind followed directly by a newline fails with "failed to parse args: unexpected newline". |
| Commands.BodyToken | cmd.go:58-62 | The body is a prefix of the input. Its length is the smaller of `len` and the runes left, or 0 when `len <= 0`. |
| Commands.LengthOf | cmd.go:54-56 | The " %d " part succeeds exactly when the input is a non-empty run of blanks, a numeral whose value fits Go's `int`, then a blank or the end. The length is that numeral's value, and what is left starts after the blanks that follow the numeral. A failure is reported as "failed to scan target or length". |
| Commands.NumeralAfterBlanks | cmd.go:54 | After the blanks a format blank takes, `%d` succeeds exactly when there were blanks and a numeral in range follows. It then reads the value of that numeral and stops where the numeral ends. |
| Commands.ScanMessage | cmd.go:53-70 | The SEND arguments fail to scan exactly when `%s` finds no target or the " %d " part does not match what follows it. A failure is reported as "failed to scan target or length", with the cause `%s` gives when the target is missing. On success the target is the token `%s` reads, and the length is the value of the numeral after the next run of blanks. The body is the counted token of what follows the blanks after the numeral, and the body followed by the rest is exactly that input. The body has at most `len` runes, is empty when `len <= 0`, and uses up the input when shorter than `len`. |
| Commands.ScanMessageNoLength | cmd.go:54-56 | "#x" is refused with EOF: `%d` meets the end of the input. |
| Commands.ScanMessageLengthNotNumber | cmd.go:54-56 | "#x abc" is refused with "expected integer". |
| Commands.ScanMessageNewlineAfterLength | cmd.go:54-56 | "#x 3\nhi" is refused, because the format's last blank does not match a newline. |
| Commands.ScanMessageNewlineAfter | cmd.go:54-56 | For every target and every length in range, a newline right after the length is refused with "newline in input does not match format". |
| Commands.ScanMessageLengthOverflow | cmd.go:54-56 | For every target, a length numeral past the largest `int` (such as 9223372036854775808) is refused as out of range, and the error names the numeral. |
| Commands.LengthReads | cmd.go:54 | A length written after one blank and before a run of blanks reads back. The final format blank takes the whole run. |
| Commands.ScanMessageRoundTrip | cmd.go:53-70 | `target + " " + |body| + " " + body + tail` scans back to that target, length and body and leaves `tail`. The body may contain spaces and newlines; it only must not start with a blank. |
| Commands.BodyLeadingBlanksDropped | cmd.go:54-62 | A body `q + body`, where `q` is a run of blanks, scans back as `body` alone, with the length still counting `q`. |
| Commands.RawCmd.Scan | cmd.go:17-31 | Either sets `kind`/`args` to the frame `ScanFrame` reads and leaves the scanner at the rest, or returns the error `ScanFrame` gives. On an error `args` is unchanged. `kind` holds the kind token whenever that token was read, even if the args then fail, and is unchanged otherwise. |
| Commands.RawMessageCmd.Scan | cmd.go:53-70 | Either sets `target`/`len`/`body` to what `ScanMessage` reads and leaves the scanner at the rest, or returns its error. |
| Commands.RawMessageCmd.Read | cmd.go:53-67 | The three readings of `Scan` in order, agreeing with `ScanMessage`. |
| Commands.RawMessageCmd.ScanLength | cmd.go:54-56 | The " %d " part of the `Fscanf` agrees with `LengthOf`. |
| Commands.RawMessageCmd.ReadBody | cmd.go:58-67 | The body loop asks the counting predicate once per rune and stops at the first refusal. It returns `BodyToken` of the rest. |
| Registry.Initial | workplace.go:8-14 | A new workplace has no members and no channels, and is well formed. |
| Registry.Workplace.constructor | workplace.go:8-14 | `NewWorkplace`: both maps are empty and nothing has been written. |
| Registry.Registered | workplace.go:50-57 | A taken name changes nothing. A fresh name adds exactly `name ↦ m` and keeps every other member. Channels are never changed. |
| Registry.Workplace.Register | workplace.go:50-57 | The new maps are `Registered` of the old ones. Exactly one notice, "ERR <name> username is already taken", goes to `m` when the name was taken, and nothing otherwise. The maps stay keyed by name. |
| Registry.DuplicateRegisterKeepsFirst | workplace.go:50-57 | After two registrations of one name, the first member keeps it, and the second receives the notice. |
| Registry.Deleted | workplace.go:59-64 | The name leaves the members and every channel. Every other entry and every channel name stay. |
| Registry.Workplace.Delete | workplace.go:59-64 | The loop over all channels yields `Deleted` of the old maps and writes nothing. The maps stay keyed by name. |
| Registry.DeleteThenRegister | workplace.go:50-64 | After a delete, the name is in no channel and can be registered again. |
| Registry.Joined | workplace.go:66-77 | The channel exists afterwards and is created if absent. Its members gain `m` and keep the others. No other channel and no member changes. |
| Registry.Workplace.Join | workplace.go:66-77 | The new maps are `Joined` of the old ones; nothing is written. The maps stay keyed by name. |
| Registry.JoinIdempotent | workplace.go:66-77 | Joining twice gives the same state as joining once. |
| Registry.JoinWithoutRegister | workplace.go:66-77 | A join by a name that was never registered still creates the channel with that name in it. |
| Registry.Left | workplace.go:79-86 | An absent channel changes nothing. Otherwise only `m` leaves that channel, and the channel stays even when empty. |
| Registry.Next | workplace.go:22-48 | No command removes a channel. Join and leave leave the members alone. Listings and messages change no state. |
| Registry.Emits | workplace.go:22-136 | Delete, join and leave write nothing. Channel and direct messages write their body, from their sender. Every other write comes from the workplace. |
| Registry.Workplace.Leave | workplace.go:79-86 | The new maps are `Left` of the old ones; nothing is written. The maps stay keyed by name. |
| Registry.NextWellFormed | workplace.go:22-48 | Every command keeps both maps keyed by the entries' own names. |
| Registry.RunWellFormed | workplace.go:22-48 | Any sequence of commands keeps the maps keyed by name. |
| Registry.Run | workplace.go:22-48 | Channels are never pruned: over any sequence of commands, the set of channel names only grows. A sequence of listings and messages leaves the state unchanged. |
| Registry.Workplace.Listing | workplace.go:88-106 | The listing loop writes each name once, from the workplace to the requester. There are as many writes as names. |
| Registry.Workplace.ListChannels | workplace.go:88-96 | Writes one message per channel name to the requester and changes no state. The maps stay keyed by name. |
| Registry.Workplace.ListMembers | workplace.go:98-106 | Writes one message per username to the requester and changes no state. The maps stay keyed by name. |
| Registry.ListingCovers | workplace.go:88-106 | Every key is among the names written. |
| Registry.Workplace.SendMessageInChannel | workplace.go:108-115 | Changes no state. Writes nothing for an absent channel, and otherwise one delivery of the body to each channel member. The maps stay keyed by name. |
| Registry.Workplace.Broadcast | workplace.go:114 | One delivery of the body from the sender to each member of the channel, each member once. |
| Registry.BroadcastCovers | workplace.go:108-115 | Every member of the channel receives the body. |
| Registry.SharedChannelScenario | workplace.go:22-48 | Two members register and join one channel. A channel message from one of them then reaches both, the sender included. |
| Registry.Workplace.SendDirectMessage | workplace.go:117-128 | Changes no state. Writes nothing for an absent recipient, and otherwise exactly one delivery to the registered recipient. The maps stay keyed by name. |
| Registry.Workplace.Err | workplace.go:130-136 | Writes exactly one "ERR <body>" from the workplace to the member and changes no state. The maps stay keyed by name. |
| Registry.Workplace.Apply | workplace.go:22-48 | One pass of the `Listen` switch keeps the maps well formed. The new maps are `Next` of the old ones, and what is written is what `Emits` allows. |
| Connection.ReplyTextInjective | client.go:213-219 | Different replies are written as different texts. |
| Connection.Client.WriteOk | client.go:213-215 | Appends `OK`, whose text is exactly "OK\n". |
| Connection.Client.WriteErr | client.go:217-219 | Appends the error, whose text is exactly "ERR " + msg + "\n". |
| Connection.UsernameError | client.go:104-118 | A name is taken on exactly when it has at least two runes and starts with `@`. The empty name, a name not starting with `@`, and `@` alone each get their own error text. |
| Connection.Client.SetUsername | client.go:104-118 | On failure the identity is unchanged. On success it becomes the name. Nothing is submitted or written. |
| Connection.RegisterOutcome | client.go:90-102 | The register command, carrying the new identity, is submitted exactly when `setUsername` succeeds. Otherwise nothing is submitted and the identity stays. |
| Connection.Client.Register | client.go:90-102 | Agrees with `RegisterOutcome` on the identity, the commands submitted and the error. |
| Connection.DeleteOutcome | client.go:120-128 | `delete` never fails. It submits exactly one delete command, which carries the identity as it was, and clears the identity. |
| Connection.Client.Delete | client.go:120-128 | Always submits one delete command carrying the identity as it was, then clears the identity. |
| Connection.JoinOutcome | client.go:130-142 | Exactly one join command is submitted when the channel name validates, and none otherwise. The identity is kept. |
| Connection.Client.Join | client.go:130-142 | Agrees with `JoinOutcome`. |
| Connection.LeaveOutcome | client.go:144-156 | Exactly one leave command is submitted when the channel name validates, and none otherwise. The identity is kept. |
| Connection.Client.Leave | client.go:144-156 | Agrees with `LeaveOutcome`. |
| Connection.Client.Channels | client.go:158-164 | Always submits one channels command and never fails. |
| Connection.Client.Members | client.go:166-172 | Always submits one members command and never fails. |
| Connection.MessageOutcome | client.go:174-211 | A scan failure is reported as "failed to scan command: …" and submits nothing. A command is submitted exactly when no error is returned. |
| Connection.DispatchOutcome | client.go:180-210 | A `#` target submits a channel message and an `@` target a direct message, each exactly when its name validates. Any other first rune gives the invalid-target error. |
| Connection.Client.Message | client.go:174-211 | Agrees with `MessageOutcome`. |
| Connection.Client.Dispatch | client.go:180-210 | Agrees with `DispatchOutcome`. |
| Connection.HandleEffect | client.go:40-88 | Submits at most one command and writes one or two replies. A command is submitted exactly when the only reply is OK. The last reply is OK exactly for a request kind, REGISTER only when the name is accepted. An unknown kind writes only "unknown command: <kind>". The identity changes only by REGISTER or DELETE. |
| Connection.Client.Handle | client.go:40-88 | Agrees with `HandleEffect` on the identity, the commands and the replies. |
| Connection.Client.Acknowledge | client.go:49-84 | Writes the handler's error, if any, prefixed by the handler's words, then always OK. |
| Connection.RegisterRefused | client.go:42-48 | A refused REGISTER writes one ERR and no OK, submits nothing and keeps the identity. |
| Connection.RegisterThenDelete | client.go:90-128 | REGISTER then DELETE submit a register and a delete that carry the name, and leave no identity. |
| Connection.JoinRefusedStillAcknowledged | client.go:55-60 | A refused JOIN writes ERR and then OK. |
| Connection.JoinWithoutIdentity | client.go:130-142 | Without a registration, JOIN submits a join for the empty name. |
| Connection.ReplyKindsUnknown | client.go:85-87 | A frame of kind OK or ERR is an unknown command. |
| Connection.StepEffect | client.go:29-35 | One pass of `Listen` submits at most one command, and exactly when the only reply is OK. The identity changes only along with a submitted command. |
| Connection.FrameEffect | client.go:31-35 | After the frame has been scanned, a pass submits at most one command, exactly when the only reply is OK, and changes the identity only along with a submitted command. |
| Connection.Client.Step | client.go:29-35 | Agrees with `StepEffect`. |
| Connection.Client.ReadCommand | client.go:29-33 | The `Fscanf` of "%v\n" skips leading blanks and scans the frame. It reports a failure as "failed to scan command: …". |
| Connection.BareLineRefused | client.go:29-33 | A line holding only a kind is refused with "failed to scan command: failed to parse args: unexpected newline". |
| Connection.StepReadsLine | client.go:29-35 | A line of leading blanks, a kind, a non-empty run of blanks and non-empty args, then a newline, is handled as the frame of that kind and those args. |
| Connection.StepReadsFrameText | client.go:29-35 | In particular, a line as a client writes it (kind, one space, args, newline) is handled as that frame. |
| Connection.SendFrameReads | client.go:174-178 | A SEND line written with its body's length forms a well-formed SEND frame. Its arguments scan back to the target, length and body. |
| Connection.SendToChannelHandled | client.go:79-84 | A SEND whose arguments scan to a validating channel target submits the body to that channel and writes only OK. |
| Connection.SendDirectHandled | client.go:79-84 | A SEND whose arguments scan to a validating `@` target submits a direct message with the body to that user and writes only OK. |
| Connection.SendInvalidTargetHandled | client.go:79-84 | A SEND whose target starts with neither `#` nor `@` submits nothing and writes the invalid-target error, then OK. |
| Connection.SendUnscannedHandled | client.go:79-84 | A SEND whose arguments fail to scan submits nothing and writes "failed to scan command: …" with the scan error, then OK. |
| Connection.SendEffect | client.go:79-84 | The SEND case keeps the identity, submits at most one command, and ends with OK; a command is submitted exactly when OK is the only reply. |
| Connection.SendLineRoundTrip | client.go:22-88 | A SEND line to a validating channel, written with the length of its body, submits exactly that body to that channel and writes OK. |
| Connection.Client.constructor | client.go:9-14 | `NewClient`: no identity, nothing submitted, nothing written. |

## Left out

- TCP and process start-up (presentation/tcp/tcp.go and cmd/slck/main.go) are not part of this model. They are I/O plumbing.
- The `Listen` loops (client.go:22-38, workplace.go:22-48) are modelled as one step each (`Client.Step`, `Workplace.Apply`). Context cancellation, its "ERR" reply and the blocking receives are concurrency.
- Go channels between the clients and the workplace are append-only sequences of commands. Ordering across goroutines is not modelled.
- Socket writes are sequences: `written` for a client, and `outbox` deliveries for the workplace.
- Registry.Workplace.Broadcast: `channel.broadcast` and `msg.Write` are not part of this model. A broadcast is one delivery of the raw body per channel member, and the text format actually written is left abstract.
- Registry.Workplace.ListChannels: the order in which Go ranges over a map is unspecified. The listing is stated by its set and count of names, not by its order; the same holds for `ListMembers`.
- `username.validate` and `channelName.validate` are not part of this model. They are given as functions (`Validators`).
- Scanning.SkippedSpace: white space is ASCII space and `\t`..`\r`. Unicode spaces are not modelled.
- Scanning.ErrorText: the error texts follow the messages of Go's `fmt` and `strconv` in this model's own rendering; that they match the library letter for letter is not claimed.
- Runes and bytes are not distinguished. The input is a sequence of characters, and the body's length counts runes, as the counting predicate does.
- What a failed `Fscanf` leaves unread on the connection is not modelled. The next `Step` receives whatever input is given to it.
- Commands.RawMessageCmd.Scan: Go's `Fscanf` writes `target` (and `len`) before a later part fails. The model writes the fields only on success, and callers never read them after an error.
- The "failed to parse body" branch (cmd.go:63-65) is unreachable, because `Token(false, …)` never fails; the model has no such error.
- slck.go's `USERS`/`MESSAGE` kinds are not modelled. The kinds are unified on cmd.go's.
