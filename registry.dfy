/// workplace.go: the registry of members and channels. It applies the
/// commands the connections submit, one at a time, and writes to members.
/// The writes are kept, in order, in an outbox of deliveries.
module Registry {
  import opened Util
  import opened Commands

  /// Who a delivery is from: the workplace itself (`memberWorkspalce`) or
  /// a member.
  datatype Sender = FromWorkplace | User(member: Member)

  /// One write to a member's connection: the sender, the recipient and what
  /// is written. A message a member sends is kept as its raw body; how
  /// `msg.Write` renders it is not part of this model.
  datatype Delivery = Delivery(from: Sender, to: Member, text: string)

  /// A channel: its name and its members, keyed by username.
  datatype Channel = Channel(name: string, members: map<string, Member>)

  /// The two maps of the workplace.
  datatype State = State(members: map<string, Member>, channels: map<string, Channel>)

  /// Members are keyed by their own names and channels by theirs, as every
  /// operation that inserts an entry keys it.
  ghost predicate WellFormed(s: State) {
    && (forall n :: n in s.members ==> s.members[n].name == n)
    && (forall c :: c in s.channels ==> s.channels[c].name == c && KeyedByName(s.channels[c].members))
  }

  ghost predicate KeyedByName(ms: map<string, Member>) {
    forall n :: n in ms ==> ms[n].name == n
  }

  /// `NewWorkplace`: no members, no channels.
  function Initial(): (s: State)
    ensures s.members.Keys == {} && s.channels.Keys == {}
    ensures WellFormed(s)
  {
    State(map[], map[])
  }

  /// `register`: a taken name changes nothing; a fresh one is added.
  function Registered(s: State, m: Member): (r: State)
    ensures m.name in s.members ==> r == s
    ensures m.name !in s.members ==>
      && r.members.Keys == s.members.Keys + {m.name}
      && r.members[m.name] == m
      && (forall n :: n in s.members ==> r.members[n] == s.members[n])
    ensures r.channels == s.channels
  {
    if m.name in s.members then s else s.(members := s.members[m.name := m])
  }

  /// What `register` writes back to a member whose name is taken.
  function RegisterNotice(m: Member): seq<Delivery> {
    [Delivery(FromWorkplace, m, KindText(Err) + " " + m.name + " username is already taken")]
  }

  /// The channel with member `name` gone (`channel.leave`).
  function Without(c: Channel, name: string): (r: Channel)
    ensures r.name == c.name && r.members.Keys == c.members.Keys - {name}
    ensures forall n :: n in r.members ==> r.members[n] == c.members[n]
  {
    c.(members := c.members - {name})
  }

  /// `delete`: the member is gone from the members and from every channel;
  /// every channel stays.
  function Deleted(s: State, m: Member): (r: State)
    ensures r.members.Keys == s.members.Keys - {m.name}
    ensures forall n :: n in r.members ==> r.members[n] == s.members[n]
    ensures r.channels.Keys == s.channels.Keys
    ensures forall c :: c in r.channels ==> r.channels[c] == Without(s.channels[c], m.name)
  {
    State(s.members - {m.name}, map c | c in s.channels :: Without(s.channels[c], m.name))
  }

  /// `join`: the channel is created if absent, then `m` is put in it.
  function Joined(s: State, m: Member, ch: string): (r: State)
    ensures r.members == s.members
    ensures r.channels.Keys == s.channels.Keys + {ch}
    ensures ch in s.channels ==> r.channels[ch].name == s.channels[ch].name
    ensures ch !in s.channels ==> r.channels[ch].name == ch
    ensures r.channels[ch].members.Keys == (if ch in s.channels then s.channels[ch].members.Keys else {}) + {m.name}
    ensures r.channels[ch].members[m.name] == m
    ensures ch in s.channels ==> forall n :: n in s.channels[ch].members && n != m.name ==>
      r.channels[ch].members[n] == s.channels[ch].members[n]
    ensures forall c :: c in s.channels && c != ch ==> r.channels[c] == s.channels[c]
  {
    var c := if ch in s.channels then s.channels[ch] else Channel(ch, map[]);
    s.(channels := s.channels[ch := c.(members := c.members[m.name := m])])
  }

  /// `leave`: nothing happens for an absent channel; otherwise `m` leaves
  /// it, and the channel stays even when it is left empty.
  function Left(s: State, m: Member, ch: string): (r: State)
    ensures ch !in s.channels ==> r == s
    ensures r.members == s.members
    ensures r.channels.Keys == s.channels.Keys
    ensures ch in s.channels ==> r.channels[ch] == Without(s.channels[ch], m.name)
    ensures forall c :: c in s.channels && c != ch ==> r.channels[c] == s.channels[c]
  {
    if ch !in s.channels then s
    else s.(channels := s.channels[ch := Without(s.channels[ch], m.name)])
  }

  /// The commands that only read the state: listings and messages.
  predicate IsQuery(cmd: Command) {
    cmd.ChannelsCmd? || cmd.MembersCmd? || cmd.MessageInChannelCmd? || cmd.DirectMessageCmd?
  }

  /// One pass of the `Listen` switch on the state. No command removes a
  /// channel, channel commands leave the members alone, and listings and
  /// messages change nothing.
  function Next(s: State, cmd: Command): (r: State)
    ensures s.channels.Keys <= r.channels.Keys
    ensures (cmd.JoinCmd? || cmd.LeaveCmd?) ==> r.members == s.members
    ensures IsQuery(cmd) ==> r == s
  {
    match cmd
    case RegisterCmd(m) => Registered(s, m)
    case DeleteCmd(m) => Deleted(s, m)
    case JoinCmd(m, ch) => Joined(s, m, ch)
    case LeaveCmd(m, ch) => Left(s, m, ch)
    case _ => s
  }

  /// The state after applying the commands in order. Channels are never
  /// pruned: the set of channel names only grows, and a run of listings
  /// and messages changes nothing.
  function Run(s: State, cmds: seq<Command>): (r: State)
    ensures s.channels.Keys <= r.channels.Keys
    ensures (forall i :: 0 <= i < |cmds| ==> IsQuery(cmds[i])) ==> r == s
    decreases |cmds|
  {
    if cmds == [] then s
    else
      assert forall i :: 0 <= i < |cmds[1..]| ==> cmds[1..][i] == cmds[i + 1];
      Run(Next(s, cmds[0]), cmds[1..])
  }

  /// `out` writes each of `names` once, from the workplace to `to`, in some
  /// order (the order of a Go map range).
  ghost predicate IsListing(out: seq<Delivery>, to: Member, names: set<string>) {
    && |out| == |names|
    && (forall i :: 0 <= i < |out| ==> out[i].from == FromWorkplace && out[i].to == to && out[i].text in names)
    && (forall i, j :: 0 <= i < j < |out| ==> out[i].text != out[j].text)
  }

  /// `out` writes `body` from `from` once to each member of `audience`, in
  /// some order.
  ghost predicate IsBroadcast(out: seq<Delivery>, from: Member, audience: map<string, Member>, body: string) {
    && |out| == |audience|
    && (forall i :: 0 <= i < |out| ==>
         out[i].from == User(from) && out[i].text == body
         && out[i].to.name in audience && audience[out[i].to.name] == out[i].to)
    && (forall i, j :: 0 <= i < j < |out| ==> out[i].to.name != out[j].to.name)
  }

  /// What one command writes, given the state it is applied to. Delete,
  /// join and leave write nothing; messages carry their body from their
  /// sender; everything else comes from the workplace.
  ghost predicate Emits(s: State, cmd: Command, out: seq<Delivery>)
    ensures Emits(s, cmd, out) && (cmd.DeleteCmd? || cmd.JoinCmd? || cmd.LeaveCmd?) ==> out == []
    ensures Emits(s, cmd, out) && (cmd.MessageInChannelCmd? || cmd.DirectMessageCmd?) ==>
      forall i :: 0 <= i < |out| ==> out[i].from == User(cmd.from) && out[i].text == cmd.body
    ensures Emits(s, cmd, out) && !(cmd.MessageInChannelCmd? || cmd.DirectMessageCmd?) ==>
      forall i :: 0 <= i < |out| ==> out[i].from == FromWorkplace
  {
    match cmd
    case RegisterCmd(m) => out == if m.name in s.members then RegisterNotice(m) else []
    case DeleteCmd(_) => out == []
    case JoinCmd(_, _) => out == []
    case LeaveCmd(_, _) => out == []
    case ChannelsCmd(m) => IsListing(out, m, s.channels.Keys)
    case MembersCmd(m) => IsListing(out, m, s.members.Keys)
    case MessageInChannelCmd(from, ch, body) =>
      if ch in s.channels then IsBroadcast(out, from, s.channels[ch].members, body) else out == []
    case DirectMessageCmd(from, to, body) =>
      out == if to in s.members then [Delivery(User(from), s.members[to], body)] else []
  }

  /// Every command keeps the maps keyed by name.
  lemma NextWellFormed(s: State, cmd: Command)
    requires WellFormed(s)
    ensures WellFormed(Next(s, cmd))
  {
    match cmd
    case JoinCmd(m, ch) =>
      var r := Joined(s, m, ch);
      forall c | c in r.channels
        ensures r.channels[c].name == c && KeyedByName(r.channels[c].members)
      {
        if c == ch {
          var ms := r.channels[ch].members;
          forall n | n in ms ensures ms[n].name == n {
            if n != m.name {
              assert ch in s.channels && n in s.channels[ch].members;
            }
          }
        }
      }
    case DeleteCmd(m) =>
      var r := Deleted(s, m);
      forall c | c in r.channels
        ensures r.channels[c].name == c && KeyedByName(r.channels[c].members)
      {
        assert r.channels[c] == Without(s.channels[c], m.name);
      }
    case LeaveCmd(m, ch) =>
      var r := Left(s, m, ch);
      forall c | c in r.channels
        ensures r.channels[c].name == c && KeyedByName(r.channels[c].members)
      {
        if c == ch {
          assert r.channels[c] == Without(s.channels[c], m.name);
        }
      }
    case _ =>
  }

  /// Any sequence of commands keeps the maps keyed by name.
  lemma {:induction false} RunWellFormed(s: State, cmds: seq<Command>)
    requires WellFormed(s)
    ensures WellFormed(Run(s, cmds))
    decreases |cmds|
  {
    if cmds != [] {
      NextWellFormed(s, cmds[0]);
      RunWellFormed(Next(s, cmds[0]), cmds[1..]);
    }
  }

  /// Joining twice is joining once.
  lemma JoinIdempotent(s: State, m: Member, ch: string)
    ensures Joined(Joined(s, m, ch), m, ch) == Joined(s, m, ch)
  {
    var r := Joined(s, m, ch);
    assert r.channels[ch].members[m.name := m] == r.channels[ch].members;
    assert r.channels[ch := r.channels[ch]] == r.channels;
  }

  /// Nothing checks that a joining member is registered: a join from an
  /// unknown name creates the channel with that name in it.
  lemma JoinWithoutRegister(m: Member, ch: string)
    ensures var r := Joined(Initial(), m, ch);
      r.members == map[] && ch in r.channels && m.name in r.channels[ch].members
  {
  }

  /// Deleting a member removes it from every channel it was in and from the
  /// members, and after a delete the name can be registered again.
  lemma DeleteThenRegister(s: State, m: Member, m': Member)
    requires m'.name == m.name
    ensures var r := Registered(Deleted(s, m), m');
      r.members[m.name] == m' && forall c :: c in r.channels ==> m.name !in r.channels[c].members
  {
  }

  /// A second registration of a name keeps the first member (and its
  /// connection) and writes the notice to the second.
  lemma DuplicateRegisterKeepsFirst(s: State, first: Member, second: Member)
    requires first.name == second.name && first.name !in s.members
    ensures var r := Run(s, [RegisterCmd(first), RegisterCmd(second)]);
      first.name in r.members && r.members[first.name] == first
    ensures Emits(Registered(s, first), RegisterCmd(second), RegisterNotice(second))
  {
    var cmds := [RegisterCmd(first), RegisterCmd(second)];
    var s1 := Registered(s, first);
    assert first.name in s1.members;
    assert Registered(s1, second) == s1;
    assert Run(s, cmds) == Run(s1, cmds[1..]);
    assert cmds[1..][1..] == [];
    assert Run(s1, cmds[1..]) == Run(s1, []);
  }

  /// Two members who register and join one channel are both in it, and a
  /// message one of them sends to it reaches both, the sender included.
  lemma SharedChannelScenario(alice: Member, bob: Member, ch: string, body: string, out: seq<Delivery>)
    requires alice.name != bob.name
    requires Emits(Run(Initial(), [RegisterCmd(alice), JoinCmd(alice, ch), RegisterCmd(bob), JoinCmd(bob, ch)]),
                   MessageInChannelCmd(alice, ch, body), out)
    ensures (exists i :: 0 <= i < |out| && out[i] == Delivery(User(alice), alice, body))
    ensures (exists j :: 0 <= j < |out| && out[j] == Delivery(User(alice), bob, body))
  {
    var s0 := Initial();
    var s1 := Next(s0, RegisterCmd(alice));
    var s2 := Next(s1, JoinCmd(alice, ch));
    var s3 := Next(s2, RegisterCmd(bob));
    var s4 := Next(s3, JoinCmd(bob, ch));
    var cmds := [RegisterCmd(alice), JoinCmd(alice, ch), RegisterCmd(bob), JoinCmd(bob, ch)];
    assert Run(s0, cmds) == Run(s1, cmds[1..]);
    assert Run(s1, cmds[1..]) == Run(s2, cmds[2..]);
    assert Run(s2, cmds[2..]) == Run(s3, cmds[3..]);
    assert Run(s3, cmds[3..]) == Run(s4, []);
    var audience := s4.channels[ch].members;
    assert audience[alice.name] == alice && audience[bob.name] == bob;
    BroadcastCovers(out, alice, audience, body, alice.name);
    BroadcastCovers(out, alice, audience, body, bob.name);
  }

  /// The names written by a listing are all distinct, so there are as many
  /// of them as entries.
  lemma {:induction false} DistinctTextsCount(out: seq<Delivery>)
    requires forall i, j :: 0 <= i < j < |out| ==> out[i].text != out[j].text
    ensures |set i | 0 <= i < |out| :: out[i].text| == |out|
  {
    if out != [] {
      var init := out[..|out| - 1];
      DistinctTextsCount(init);
      var last := out[|out| - 1].text;
      assert (set i | 0 <= i < |out| :: out[i].text) == (set i | 0 <= i < |init| :: init[i].text) + {last};
      assert last !in (set i | 0 <= i < |init| :: init[i].text);
    }
  }

  /// A listing names every key: each of `names` is written exactly once.
  lemma ListingCovers(out: seq<Delivery>, to: Member, names: set<string>, n: string)
    requires IsListing(out, to, names)
    requires n in names
    ensures exists i :: 0 <= i < |out| && out[i].text == n
  {
    var written := set i | 0 <= i < |out| :: out[i].text;
    DistinctTextsCount(out);
    assert written <= names;
    SubsetSameSize(written, names);
    assert n in written;
  }

  /// A subset as large as its superset is the whole set.
  lemma {:induction false} SubsetSameSize<T>(a: set<T>, b: set<T>)
    requires a <= b && |a| == |b|
    ensures a == b
    decreases a
  {
    if a != {} {
      var y :| y in a;
      SubsetSameSize(a - {y}, b - {y});
    } else {
      assert |b| == 0;
    }
  }

  /// The recipients of a broadcast are all distinct, so there are as many
  /// of them as entries.
  lemma {:induction false} DistinctRecipientsCount(out: seq<Delivery>)
    requires forall i, j :: 0 <= i < j < |out| ==> out[i].to.name != out[j].to.name
    ensures |set i | 0 <= i < |out| :: out[i].to.name| == |out|
  {
    if out != [] {
      var init := out[..|out| - 1];
      DistinctRecipientsCount(init);
      var last := out[|out| - 1].to.name;
      assert (set i | 0 <= i < |out| :: out[i].to.name) == (set i | 0 <= i < |init| :: init[i].to.name) + {last};
      assert last !in (set i | 0 <= i < |init| :: init[i].to.name);
    }
  }

  /// A broadcast reaches every member of the channel, with the body.
  lemma BroadcastCovers(out: seq<Delivery>, from: Member, audience: map<string, Member>, body: string, n: string)
    requires IsBroadcast(out, from, audience, body)
    requires n in audience
    ensures exists i :: 0 <= i < |out| && out[i].to == audience[n] && out[i].text == body
  {
    var reached := set i | 0 <= i < |out| :: out[i].to.name;
    DistinctRecipientsCount(out);
    assert reached <= audience.Keys;
    SubsetSameSize(reached, audience.Keys);
    assert n in reached;
    var i :| 0 <= i < |out| && out[i].to.name == n;
  }

  /// The workplace of workplace.go:16-20; `cmds` is replaced by the
  /// commands given to `Apply`, and the writes to members by `outbox`.
  class Workplace {
    var members: map<string, Member>
    var channels: map<string, Channel>
    var outbox: seq<Delivery>

    function Maps(): State
      reads this
    {
      State(members, channels)
    }

    ghost predicate Valid()
      reads this
    {
      WellFormed(Maps())
    }

    /// `NewWorkplace`.
    constructor ()
      ensures Valid() && Maps() == Initial() && outbox == []
    {
      members := map[];
      channels := map[];
      outbox := [];
    }

    /// `register`.
    method Register(m: Member)
      requires Valid()
      modifies this
      ensures Valid()
      ensures Maps() == Registered(old(Maps()), m)
      ensures outbox == old(outbox) + (if m.name in old(members) then RegisterNotice(m) else [])
    {
      NextWellFormed(Maps(), RegisterCmd(m));
      assert Next(Maps(), RegisterCmd(m)) == Registered(Maps(), m);
      if m.name in members {
        Err(m, m.name + " username is already taken");
        assert KindText(Commands.Err) + " " + (m.name + " username is already taken")
            == KindText(Commands.Err) + " " + m.name + " username is already taken";
        return;
      }
      members := members[m.name := m];
    }

    /// `delete`: the member goes, then every channel is visited and the
    /// member leaves it.
    method Delete(m: Member)
      requires Valid()
      modifies this
      ensures Valid()
      ensures Maps() == Deleted(old(Maps()), m)
      ensures outbox == old(outbox)
    {
      NextWellFormed(Maps(), DeleteCmd(m));
      assert Next(Maps(), DeleteCmd(m)) == Deleted(Maps(), m);
      members := members - {m.name};
      var todo := channels.Keys;
      var chs := channels;
      while todo != {}
        invariant todo <= channels.Keys && chs.Keys == channels.Keys
        invariant forall c :: c in chs ==> chs[c] == if c in todo then channels[c] else Without(channels[c], m.name)
        decreases todo
      {
        var c :| c in todo;
        chs := chs[c := Without(chs[c], m.name)];
        todo := todo - {c};
      }
      channels := chs;
    }

    /// `join`.
    method Join(m: Member, ch: string)
      requires Valid()
      modifies this
      ensures Valid()
      ensures Maps() == Joined(old(Maps()), m, ch)
      ensures outbox == old(outbox)
    {
      ghost var s := Maps();
      var c: Channel;
      if ch in channels {
        c := channels[ch];
      } else {
        c := Channel(ch, map[]);
        channels := channels[ch := c];
      }
      channels := channels[ch := c.(members := c.members[m.name := m])];
      assert Maps() == Next(s, JoinCmd(m, ch));
      NextWellFormed(s, JoinCmd(m, ch));
    }

    /// `leave`.
    method Leave(m: Member, ch: string)
      requires Valid()
      modifies this
      ensures Valid()
      ensures Maps() == Left(old(Maps()), m, ch)
      ensures outbox == old(outbox)
    {
      NextWellFormed(Maps(), LeaveCmd(m, ch));
      assert Next(Maps(), LeaveCmd(m, ch)) == Left(Maps(), m, ch);
      if ch !in channels {
        return;
      }
      channels := channels[ch := Without(channels[ch], m.name)];
    }

    /// `listChannels`.
    method ListChannels(m: Member)
      requires Valid()
      modifies this
      ensures Valid()
      ensures Maps() == old(Maps())
      ensures old(outbox) <= outbox && IsListing(outbox[|old(outbox)|..], m, channels.Keys)
    {
      var out := Listing(m, channels.Keys);
      outbox := outbox + out;
      assert outbox[|old(outbox)|..] == out;
    }

    /// `listMembers`.
    method ListMembers(m: Member)
      requires Valid()
      modifies this
      ensures Valid()
      ensures Maps() == old(Maps())
      ensures old(outbox) <= outbox && IsListing(outbox[|old(outbox)|..], m, members.Keys)
    {
      var out := Listing(m, members.Keys);
      outbox := outbox + out;
      assert outbox[|old(outbox)|..] == out;
    }

    /// The loop of `listChannels` and `listMembers`: one write of each name,
    /// in the order the names are picked.
    static method Listing(to: Member, names: set<string>) returns (out: seq<Delivery>)
      ensures IsListing(out, to, names)
    {
      out := [];
      var todo := names;
      while todo != {}
        invariant todo <= names
        invariant |out| == |names - todo|
        invariant forall i :: 0 <= i < |out| ==> out[i].from == FromWorkplace && out[i].to == to && out[i].text in names - todo
        invariant forall i, j :: 0 <= i < j < |out| ==> out[i].text != out[j].text
        decreases todo
      {
        var n :| n in todo;
        assert names - (todo - {n}) == (names - todo) + {n};
        out := out + [Delivery(FromWorkplace, to, n)];
        todo := todo - {n};
      }
    }

    /// `sendMessageInChannel`: nothing for an absent channel, otherwise the
    /// channel broadcasts the body.
    method SendMessageInChannel(from: Member, ch: string, body: string)
      requires Valid()
      modifies this
      ensures Valid()
      ensures Maps() == old(Maps())
      ensures old(outbox) <= outbox
      ensures ch !in channels ==> outbox == old(outbox)
      ensures ch in channels ==> IsBroadcast(outbox[|old(outbox)|..], from, channels[ch].members, body)
    {
      if ch !in channels {
        return;
      }
      var out := Broadcast(from, channels[ch].members, body);
      outbox := outbox + out;
      assert outbox[|old(outbox)|..] == out;
    }

    /// `channel.broadcast`: one write of the body to each member.
    static method Broadcast(from: Member, audience: map<string, Member>, body: string) returns (out: seq<Delivery>)
      requires KeyedByName(audience)
      ensures IsBroadcast(out, from, audience, body)
    {
      out := [];
      var todo := audience.Keys;
      while todo != {}
        invariant todo <= audience.Keys
        invariant |out| == |audience.Keys - todo|
        invariant forall i :: 0 <= i < |out| ==>
          out[i].from == User(from) && out[i].text == body
          && out[i].to.name in audience.Keys - todo && audience[out[i].to.name] == out[i].to
        invariant forall i, j :: 0 <= i < j < |out| ==> out[i].to.name != out[j].to.name
        decreases todo
      {
        var n :| n in todo;
        assert audience.Keys - (todo - {n}) == (audience.Keys - todo) + {n};
        out := out + [Delivery(User(from), audience[n], body)];
        todo := todo - {n};
      }
    }

    /// `sendDirectMessage`: nothing for an absent recipient, otherwise one
    /// write of the body to it.
    method SendDirectMessage(from: Member, to: string, body: string)
      requires Valid()
      modifies this
      ensures Valid()
      ensures Maps() == old(Maps())
      ensures outbox == old(outbox) + if to in members then [Delivery(User(from), members[to], body)] else []
    {
      if to !in members {
        return;
      }
      outbox := outbox + [Delivery(User(from), members[to], body)];
    }

    /// `err`: an ERR line from the workplace to `to`.
    method Err(to: Member, body: string)
      requires Valid()
      modifies this
      ensures Valid()
      ensures Maps() == old(Maps())
      ensures outbox == old(outbox) + [Delivery(FromWorkplace, to, KindText(Commands.Err) + " " + body)]
    {
      outbox := outbox + [Delivery(FromWorkplace, to, KindText(Commands.Err) + " " + body)];
    }

    /// One pass of the `Listen` loop: the command is applied, the state
    /// becomes `Next` of the old one, and what is written is what `Emits`
    /// allows.
    method Apply(cmd: Command)
      requires Valid()
      modifies this
      ensures Valid()
      ensures Maps() == Next(old(Maps()), cmd)
      ensures old(outbox) <= outbox && Emits(old(Maps()), cmd, outbox[|old(outbox)|..])
    {
      ghost var s := Maps();
      match cmd
      case RegisterCmd(m) =>
        Register(m);
        assert Next(s, cmd) == Registered(s, m);
      case DeleteCmd(m) =>
        Delete(m);
        assert Next(s, cmd) == Deleted(s, m);
      case JoinCmd(m, ch) =>
        Join(m, ch);
        assert Next(s, cmd) == Joined(s, m, ch);
      case LeaveCmd(m, ch) =>
        Leave(m, ch);
        assert Next(s, cmd) == Left(s, m, ch);
      case ChannelsCmd(m) => ListChannels(m);
      case MembersCmd(m) => ListMembers(m);
      case MessageInChannelCmd(from, ch, body) => SendMessageInChannel(from, ch, body);
      case DirectMessageCmd(from, to, body) => SendDirectMessage(from, to, body);
    }
  }
}
