/** The message board's observer core: boards (subjects) hold allowed
    channels, an ordered subscriber list and the latest message; users
    (observers) keep, per board name, the channel they chose; channels
    render the board's message. Every console line of the original becomes
    an `Event` that the operation returns. */
module MessageBoard {
  import opened Lists
  import opened Subscriptions

  datatype Option<T> = None | Some(value: T)

  /** The three notification channel variants. */
  datatype ChannelKind = Email | Sms | WhatsApp

  /** The channel's `name` property. Events record the channel's kind,
      which this label determines (`LabelsDistinct`). */
  function Label(k: ChannelKind): (s: string) {
    match k
    case Email => "EMAIL"
    case Sms => "SMS"
    case WhatsApp => "WhatsApp"
  }

  /** The three labels tell the channel kinds apart. */
  lemma LabelsDistinct(a: ChannelKind, b: ChannelKind)
    ensures Label(a) == Label(b) <==> a == b
  {
  }

  /** A public board, or a private one with its fixed password. */
  datatype BoardKind = Public | Private(password: string)

  /** How an operation ended: normally, with a failed lookup of a board
      name in a user's map, or by reading a board's message before any was
      posted. The last two are exceptions that end the operation. */
  datatype Status = Ok | KeyError(key: string) | NoMessage

  /** One console line, abstracted. */
  datatype Event =
    | Joined(user: User, board: string)
    | AddFailed(user: User)
    | ChannelUnavailable(user: User, channel: ChannelKind)
    | Left(user: User, board: string)
    | RemoveFailed(user: User)
    | ChannelAdded(channel: ChannelKind, board: string)
    | Authenticated(user: User)
    | WrongPassword(user: User)
    | Posted(board: string, message: string)
    | NotifyingUsers(board: string)
    | NotificationEnd
    | Notified(user: User)
    | Delivered(channel: ChannelKind, message: string)
    | ChannelChanged(user: User, from: ChannelKind, to: ChannelKind)

  /** The status and the events of a run of notifications. */
  datatype Run = Run(status: Status, events: seq<Event>)

  /** The lines the board prints when asked to admit `u` with `req`. */
  function AddEvents(board: string, subs: seq<User>, allowed: seq<Channel>, u: User, req: Channel): (events: seq<Event>) {
    if req !in allowed then [ChannelUnavailable(u, req.kind)]
    else if u in subs then [AddFailed(u)]
    else [Joined(u, board)]
  }

  /** What notifying `u` for the board named `key` whose message is `post`
      prints, and how it ends. */
  ghost function Receive(u: User, key: string, post: Option<string>): (r: Run)
    reads u
  {
    if key !in u.boards then Run(KeyError(key), [Notified(u)])
    else match post
      case None => Run(NoMessage, [Notified(u)])
      case Some(m) => Run(Ok, [Notified(u), Delivered(u.boards[key].kind, m)])
  }

  /** Notifying the subscribers `us` in order; the first failure stops the
      run. */
  ghost function Broadcast(us: seq<User>, key: string, post: Option<string>): (r: Run)
    reads us
    decreases |us|
  {
    if us == [] then Run(Ok, [])
    else
      var first := Receive(us[0], key, post);
      if first.status != Ok then first
      else
        var rest := Broadcast(us[1..], key, post);
        Run(rest.status, first.events + rest.events)
  }

  /** With a message posted, a broadcast ends normally exactly when every
      subscriber has an entry for the board, and otherwise with a lookup
      error for the board's name. */
  lemma {:induction false} BroadcastStatus(us: seq<User>, key: string, m: string)
    ensures Broadcast(us, key, Some(m)).status
         == if forall i | 0 <= i < |us| :: key in us[i].boards then Ok else KeyError(key)
  {
    if us != [] && key in us[0].boards {
      BroadcastStatus(us[1..], key, m);
      if forall i | 0 <= i < |us| - 1 :: key in us[1..][i].boards {
        forall i | 0 <= i < |us| ensures key in us[i].boards {
          if i > 0 { assert us[i] == us[1..][i - 1]; }
        }
      } else {
        var i :| 0 <= i < |us| - 1 && key !in us[1..][i].boards;
        assert us[1..][i] == us[i + 1];
      }
    }
  }

  /** A run that continues after the events `done`. */
  function After(done: seq<Event>, r: Run): (r': Run) {
    Run(r.status, done + r.events)
  }

  /** One notification followed, if it succeeded, by the rest. */
  function Chain(first: Run, rest: Run): (r: Run) {
    if first.status != Ok then first else After(first.events, rest)
  }

  /** Broadcasting from position `i` on is notifying `us[i]`, then, if that
      succeeded, broadcasting from `i + 1` on. */
  lemma BroadcastStep(us: seq<User>, i: nat, key: string, post: Option<string>)
    requires i < |us|
    ensures Broadcast(us[i..], key, post) == Chain(Receive(us[i], key, post), Broadcast(us[i + 1..], key, post))
  {
    assert us[i..][0] == us[i] && us[i..][1..] == us[i + 1..];
  }

  /** Continuing after `done` with one notification and the rest. */
  lemma AfterChain(done: seq<Event>, first: Run, rest: Run)
    ensures first.status == Ok ==> After(done, Chain(first, rest)) == After(done + first.events, rest)
    ensures first.status != Ok ==> After(done, Chain(first, rest)) == Run(first.status, done + first.events)
  {
    assert done + first.events + rest.events == done + (first.events + rest.events);
  }

  /** When every subscriber has an entry, the broadcast of `m` prints, for
      each subscriber in order, one notice and one delivery through the
      channel that subscriber chose for the board, carrying `m`. */
  lemma {:induction false} BroadcastDelivers(us: seq<User>, key: string, m: string)
    requires forall i | 0 <= i < |us| :: key in us[i].boards
    ensures var evs := Broadcast(us, key, Some(m)).events;
      |evs| == 2 * |us| &&
      forall i | 0 <= i < |us| ::
        evs[2 * i] == Notified(us[i]) && evs[2 * i + 1] == Delivered(us[i].boards[key].kind, m)
  {
    if us != [] {
      var t := us[1..];
      assert forall i | 0 <= i < |t| :: t[i] == us[i + 1];
      BroadcastDelivers(t, key, m);
      BroadcastStatus(t, key, m);
      var head := [Notified(us[0]), Delivered(us[0].boards[key].kind, m)];
      var rest := Broadcast(t, key, Some(m)).events;
      var evs := Broadcast(us, key, Some(m)).events;
      assert evs == head + rest;
      forall i | 0 <= i < |us|
        ensures evs[2 * i] == Notified(us[i]) && evs[2 * i + 1] == Delivered(us[i].boards[key].kind, m)
      {
        if i > 0 {
          assert evs[2 * i] == rest[2 * (i - 1)];
          assert evs[2 * i + 1] == rest[2 * (i - 1) + 1];
        }
      }
    }
  }

  /** When subscriber `j` is the first without an entry for the board, the
      lookup error ends the broadcast right after `j`'s notice: the
      subscribers before `j` were all served, the ones after are not. */
  lemma {:induction false} BroadcastStopsAt(us: seq<User>, key: string, m: string, j: nat)
    requires j < |us| && key !in us[j].boards
    requires forall i | 0 <= i < j :: key in us[i].boards
    ensures Broadcast(us, key, Some(m))
         == Run(KeyError(key), Broadcast(us[..j], key, Some(m)).events + [Notified(us[j])])
  {
    if j > 0 {
      var t := us[1..];
      assert forall i | 0 <= i < |t| :: t[i] == us[i + 1];
      BroadcastStopsAt(t, key, m, j - 1);
      assert us[..j][1..] == t[..j - 1];
      assert us[..j][0] == us[0];
    }
  }

  /** The broadcast of `m` to subscribers who all have an entry for the
      board ends normally, and serves the subscriber at place `k` with the
      notice at `2 * k` and the delivery through that subscriber's channel
      at `2 * k + 1`. */
  lemma DeliveryAt(us: seq<User>, key: string, m: string, k: nat)
    requires k < |us|
    requires forall i | 0 <= i < |us| :: key in us[i].boards
    ensures var r := Broadcast(us, key, Some(m));
      r.status == Ok && |r.events| == 2 * |us|
      && r.events[2 * k] == Notified(us[k]) && r.events[2 * k + 1] == Delivered(us[k].boards[key].kind, m)
  {
    BroadcastStatus(us, key, m);
    BroadcastDelivers(us, key, m);
  }

  /** A notification channel. Channels are compared by identity: two
      channels of the same kind are different channels. */
  class Channel {
    const kind: ChannelKind

    constructor (kind: ChannelKind)
      ensures this.kind == kind
    {
      this.kind := kind;
    }

    /** Renders the board's current message through this channel; reading
        the message of a board that never had one fails. */
    method Notify(b: Board) returns (st: Status, events: seq<Event>)
      ensures b.post.Some? ==> st == Ok && events == [Delivered(kind, b.post.value)]
      ensures b.post.None? ==> st == NoMessage && events == []
    {
      match b.post
      case None =>
        st, events := NoMessage, [];
      case Some(m) =>
        st, events := Ok, [Delivered(kind, m)];
    }
  }

  /** A message board, public or private. */
  class Board {
    const name: string
    const kind: BoardKind
    var users: seq<User>
    var channels: seq<Channel>
    var post: Option<string>
    /** The channel each subscriber was admitted with, in the same order. */
    ghost var admittedVia: seq<Channel>

    /** No user is subscribed twice, and each was admitted with a channel
        the board offers. */
    ghost predicate Valid()
      reads this
    {
      && NoDup(users)
      && |admittedVia| == |users|
      && forall i | 0 <= i < |admittedVia| :: admittedVia[i] in channels
    }

    constructor PublicBoard(name: string)
      ensures Valid()
      ensures this.name == name && kind == Public
      ensures users == [] && channels == [] && post == None
    {
      this.name := name;
      kind := Public;
      users, channels, post := [], [], None;
      admittedVia := [];
    }

    constructor PrivateBoard(name: string, password: string)
      ensures Valid()
      ensures this.name == name && kind == Private(password)
      ensures users == [] && channels == [] && post == None
    {
      this.name := name;
      kind := Private(password);
      users, channels, post := [], [], None;
      admittedVia := [];
    }

    /** Admits `u` with the channel `u` requested, if the board offers that
        channel and `u` is not yet a subscriber; `u` then joins at the end. */
    method Add(u: User) returns (ok: bool, events: seq<Event>)
      requires Valid() && u.requestChannel != null
      modifies this
      ensures Valid()
      ensures ok <==> Admits(old(users), channels, u, u.requestChannel)
      ensures users == Join(old(users), channels, u, u.requestChannel)
      ensures events == AddEvents(name, old(users), channels, u, u.requestChannel)
      ensures admittedVia == if ok then old(admittedVia) + [u.requestChannel] else old(admittedVia)
      ensures channels == old(channels) && post == old(post)
    {
      var req := u.requestChannel;
      if req in channels {
        if u !in users {
          users := users + [u];
          admittedVia := admittedVia + [req];
          ok, events := true, [Joined(u, name)];
        } else {
          ok, events := false, [AddFailed(u)];
        }
      } else {
        ok, events := false, [ChannelUnavailable(u, req.kind)];
      }
    }

    /** Drops `u` from the subscribers; the others keep their order. */
    method Remove(u: User) returns (ok: bool, events: seq<Event>)
      requires Valid()
      modifies this
      ensures Valid()
      ensures ok <==> u in old(users)
      ensures users == RemoveFirst(old(users), u)
      ensures u !in users
      ensures events == if ok then [Left(u, name)] else [RemoveFailed(u)]
      ensures ok ==> var i := IndexOf(old(users), u);
        admittedVia == old(admittedVia)[..i] + old(admittedVia)[i + 1..]
      ensures !ok ==> admittedVia == old(admittedVia)
      ensures channels == old(channels) && post == old(post)
    {
      RemoveFirstNoDup(users, u);
      if u in users {
        ghost var i := IndexOf(users, u);
        users := RemoveFirst(users, u);
        admittedVia := admittedVia[..i] + admittedVia[i + 1..];
        assert forall k | 0 <= k < |admittedVia| ::
          admittedVia[k] == old(admittedVia)[if k < i then k else k + 1];
        ok, events := true, [Left(u, name)];
      } else {
        ok, events := false, [RemoveFailed(u)];
      }
    }

    /** Appends every channel of `cs`, in order and duplicates included,
        after the board's channels. */
    method AddChannels(cs: seq<Channel>) returns (ok: bool, events: seq<Event>)
      requires Valid()
      modifies this
      ensures Valid()
      ensures ok
      ensures channels == old(channels) + cs
      ensures |events| == |cs|
      ensures forall i | 0 <= i < |cs| :: events[i] == ChannelAdded(cs[i].kind, name)
      ensures users == old(users) && post == old(post) && admittedVia == old(admittedVia)
    {
      events := [];
      var i := 0;
      while i < |cs|
        invariant 0 <= i <= |cs|
        invariant channels == old(channels) + cs[..i]
        invariant users == old(users) && post == old(post) && admittedVia == old(admittedVia)
        invariant Valid()
        invariant |events| == i
        invariant forall k | 0 <= k < i :: events[k] == ChannelAdded(cs[k].kind, name)
      {
        channels := channels + [cs[i]];
        events := events + [ChannelAdded(cs[i].kind, name)];
        assert cs[..i + 1] == cs[..i] + [cs[i]];
        i := i + 1;
      }
      assert cs[..i] == cs;
      ok := true;
    }

    /** Asks every subscriber, in subscription order, to notify itself; a
        failing subscriber ends the run. */
    method Notify() returns (st: Status, events: seq<Event>)
      ensures st == Broadcast(users, name, post).status
      ensures events == [NotifyingUsers(name)] + Broadcast(users, name, post).events
                        + (if st == Ok then [NotificationEnd] else [])
    {
      var us := users;
      ghost var whole := Broadcast(us, name, post);
      var done: seq<Event> := [];
      st := Ok;
      var i := 0;
      while i < |us| && st == Ok
        invariant 0 <= i <= |us|
        invariant st == Ok ==> whole == After(done, Broadcast(us[i..], name, post))
        invariant st != Ok ==> whole == Run(st, done)
      {
        BroadcastStep(us, i, name, post);
        ghost var rest := Broadcast(us[i + 1..], name, post);
        var ev;
        st, ev := us[i].Notify(this);
        AfterChain(done, Run(st, ev), rest);
        done := done + ev;
        i := i + 1;
      }
      events := [NotifyingUsers(name)] + done + (if st == Ok then [NotificationEnd] else []);
    }

    /** Posts `m`: stores it, then notifies the subscribers. */
    method Post(m: string) returns (st: Status, events: seq<Event>)
      modifies this`post
      ensures post == Some(m)
      ensures st == Broadcast(users, name, Some(m)).status
      ensures events == [Posted(name, m), NotifyingUsers(name)] + Broadcast(users, name, Some(m)).events
                        + (if st == Ok then [NotificationEnd] else [])
    {
      post := Some(m);
      var ev;
      st, ev := Notify();
      events := [Posted(name, m)] + ev;
    }

    /** Whether `u`'s password is exactly the board's password. */
    method Authenticate(u: User) returns (ok: bool, events: seq<Event>)
      requires kind.Private?
      ensures ok <==> u.password == kind.password
      ensures events == [if ok then Authenticated(u) else WrongPassword(u)]
    {
      ok := u.password == kind.password;
      events := [if ok then Authenticated(u) else WrongPassword(u)];
    }
  }

  /** A subscriber. */
  class User {
    const name: string
    const password: string
    /** The channel chosen for each board, by board name. */
    var boards: map<string, Channel>
    /** The channel of the latest subscription request. */
    var requestChannel: Channel?

    constructor (name: string, password: string)
      ensures this.name == name && this.password == password
      ensures boards == map[] && requestChannel == null
    {
      this.name, this.password := name, password;
      boards, requestChannel := map[], null;
    }

    /** Whether subscribing to `b` gets past authentication. */
    predicate MayJoin(b: Board) {
      b.kind.Public? || password == b.kind.password
    }

    /** Subscribes to `b` with channel `c`. A private board first checks
        the password; past that, the board is asked to admit this user and,
        whatever it answers, `c` is recorded for the board's name. */
    method Subscribe(b: Board, c: Channel) returns (events: seq<Event>)
      requires b.Valid()
      modifies this, b
      ensures b.Valid()
      ensures Link(boards, b.users)
           == AfterSubscribe(Link(old(boards), old(b.users)), b.channels, this, b.name, c, MayJoin(b))
      ensures requestChannel == if MayJoin(b) then c else old(requestChannel)
      ensures events == (if b.kind.Private? then [if MayJoin(b) then Authenticated(this) else WrongPassword(this)] else [])
                        + (if MayJoin(b) then AddEvents(b.name, old(b.users), b.channels, this, c) else [])
      ensures b.admittedVia == if MayJoin(b) && Admits(old(b.users), b.channels, this, c)
                               then old(b.admittedVia) + [c] else old(b.admittedVia)
      ensures b.channels == old(b.channels) && b.post == old(b.post)
    {
      events := [];
      var pass := true;
      if b.kind.Private? {
        pass, events := b.Authenticate(this);
      }
      if pass {
        requestChannel := c;
        var _, added := b.Add(this);
        boards := boards[b.name := c];
        events := events + added;
      }
    }

    /** Unsubscribes from `b`: the board drops this user, then the entry
        for the board's name is deleted, which fails when there is none. */
    method Unsubscribe(b: Board) returns (st: Status, events: seq<Event>)
      requires b.Valid()
      modifies this, b
      ensures b.Valid()
      ensures Link(boards, b.users) == AfterUnsubscribe(Link(old(boards), old(b.users)), this, b.name)
      ensures st == if b.name in old(boards) then Ok else KeyError(b.name)
      ensures events == [if this in old(b.users) then Left(this, b.name) else RemoveFailed(this)]
      ensures this in old(b.users) ==> var i := IndexOf(old(b.users), this);
        b.admittedVia == old(b.admittedVia)[..i] + old(b.admittedVia)[i + 1..]
      ensures this !in old(b.users) ==> b.admittedVia == old(b.admittedVia)
      ensures requestChannel == old(requestChannel)
      ensures b.channels == old(b.channels) && b.post == old(b.post)
    {
      var _, removed := b.Remove(this);
      events := removed;
      if b.name in boards {
        boards := boards - {b.name};
        st := Ok;
      } else {
        st := KeyError(b.name);
      }
    }

    /** Receives the notification of `b`: delegates to the channel recorded
        for the board's name. */
    method Notify(b: Board) returns (st: Status, events: seq<Event>)
      ensures Run(st, events) == Receive(this, b.name, b.post)
    {
      events := [Notified(this)];
      if b.name !in boards {
        st := KeyError(b.name);
        return;
      }
      var channel := boards[b.name];
      var delivered;
      st, delivered := channel.Notify(b);
      events := events + delivered;
    }

    /** Switches the channel recorded for `b`'s name to `c`; fails, changing
        nothing, when there is no entry for it. */
    method Update(b: Board, c: Channel) returns (st: Status, events: seq<Event>)
      modifies this`boards
      ensures b.name in old(boards) ==>
        st == Ok && boards == old(boards)[b.name := c]
        && events == [ChannelChanged(this, old(boards)[b.name].kind, c.kind)]
      ensures b.name !in old(boards) ==> st == KeyError(b.name) && boards == old(boards) && events == []
    {
      if b.name !in boards {
        st, events := KeyError(b.name), [];
        return;
      }
      var previous := boards[b.name];
      boards := boards[b.name := c];
      st, events := Ok, [ChannelChanged(this, previous.kind, c.kind)];
    }
  }

  /** A user new to a public board who subscribes with an offered channel
      and then unsubscribes leaves the board's subscribers and the user's
      map as they were; only the requested channel stays changed. */
  method SubscribeThenUnsubscribe(u: User, b: Board, c: Channel) returns (st: Status)
    requires b.Valid() && b.kind.Public?
    requires c in b.channels && u !in b.users && b.name !in u.boards
    modifies u, b
    ensures b.Valid() && st == Ok
    ensures b.users == old(b.users) && u.boards == old(u.boards)
    ensures u.requestChannel == c
  {
    var _ := u.Subscribe(b, c);
    var left;
    st, left := u.Unsubscribe(b);
    SubscribeUnsubscribeRoundTrip(Link(old(u.boards), old(b.users)), b.channels, u, b.name, c);
  }

  /** After the subscriber at place `k` switches to channel `c`, the next
      post reaches that subscriber through `c`, at the same place in the
      order. */
  method UpdateThenPost(u: User, b: Board, c: Channel, m: string, k: nat) returns (events: seq<Event>)
    requires k < |b.users| && b.users[k] == u
    requires forall i | 0 <= i < |b.users| :: b.name in b.users[i].boards
    modifies u`boards, b`post
    ensures |events| == 2 * |b.users| + 3
    ensures events[2 * k + 2] == Notified(u) && events[2 * k + 3] == Delivered(c.kind, m)
  {
    ghost var us, key := b.users, b.name;
    var _, _ := u.Update(b, c);
    forall i | 0 <= i < |us| ensures key in us[i].boards {
      if us[i] != u {
        assert key in old(us[i].boards);
      }
    }
    events := PostReaches(b, m, k);
  }

  /** When every subscriber has an entry for the board, posting `m` serves
      the subscriber at place `k` with a notice and a delivery of `m`
      through the channel that subscriber chose, after the two opening
      lines and the two events of each earlier subscriber. */
  method PostReaches(b: Board, m: string, k: nat) returns (events: seq<Event>)
    requires k < |b.users|
    requires forall i | 0 <= i < |b.users| :: b.name in b.users[i].boards
    modifies b`post
    ensures b.post == Some(m)
    ensures |events| == 2 * |b.users| + 3
    ensures events[0] == Posted(b.name, m) && events[1] == NotifyingUsers(b.name)
    ensures events[|events| - 1] == NotificationEnd
    ensures events[2 * k + 2] == Notified(b.users[k])
    ensures events[2 * k + 3] == Delivered(b.users[k].boards[b.name].kind, m)
  {
    ghost var us, key := b.users, b.name;
    DeliveryAt(us, key, m, k);
    ghost var run := Broadcast(us, key, Some(m)).events;
    var st;
    st, events := b.Post(m);
    assert events == [Posted(key, m), NotifyingUsers(key)] + run + [NotificationEnd];
    assert events[2 * k + 2] == run[2 * k] && events[2 * k + 3] == run[2 * k + 1];
  }

  /** A public board with e-mail and SMS: one user subscribes by e-mail,
      a post reaches that user once by e-mail, then the user leaves. */
  method PublicBoardScenario() {
    var board := new Board.PublicBoard("Public Board");
    var email := new Channel(Email);
    var sms := new Channel(Sms);
    var _, _ := board.AddChannels([email, sms]);
    var doanh := new User("Doanh", "Admin");
    var joined := doanh.Subscribe(board, email);
    assert joined == [Joined(doanh, "Public Board")];
    assert board.users == [doanh] && doanh.boards == map["Public Board" := email];
    var posted, left := PostThenLeave(board, doanh, email, "Hello");
    assert posted[3] == Delivered(Email, "Hello");
    assert board.users == [] && doanh.boards == map[];
  }

  /** The sole subscriber `u` of `b`, on channel `c`, gets one notice and one
      delivery of `m` through `c`, then unsubscribes, leaving both sides
      empty. */
  method PostThenLeave(b: Board, u: User, c: Channel, m: string) returns (posted: seq<Event>, left: seq<Event>)
    requires b.Valid() && b.users == [u] && u.boards == map[b.name := c]
    modifies b, u
    ensures posted == [Posted(b.name, m), NotifyingUsers(b.name), Notified(u), Delivered(c.kind, m), NotificationEnd]
    ensures left == [Left(u, b.name)]
    ensures b.users == [] && u.boards == map[]
  {
    DeliveryAt(b.users, b.name, m, 0);
    var st;
    st, posted := b.Post(m);
    assert RemoveFirst([u], u) == [];
    assert map[b.name := c] - {b.name} == map[];
    st, left := u.Unsubscribe(b);
  }

  /** A private board with password "Admin" accepts that password and
      rejects "admin": the comparison is case-sensitive. A rejected user is
      neither recorded nor admitted. */
  method AuthenticationScenario() {
    var board := new Board.PrivateBoard("Private Board", "Admin");
    var email := new Channel(Email);
    var _, _ := board.AddChannels([email]);
    var doanh := new User("Doanh", "Admin");
    var dan := new User("Dan", "admin");
    var ok, _ := board.Authenticate(doanh);
    assert ok;
    var rejected;
    ok, rejected := board.Authenticate(dan);
    assert !ok;
    var refused := dan.Subscribe(board, email);
    assert refused == [WrongPassword(dan)];
    assert board.users == [] && dan.boards == map[];
    var joined := doanh.Subscribe(board, email);
    assert joined == [Authenticated(doanh), Joined(doanh, "Private Board")];
    assert board.users == [doanh];
  }

  /** A message posted to a board is the board's message afterwards. */
  method NewPostScenario() {
    var board := new Board.PublicBoard("Public Board");
    var st, events := board.Post("Second Post!!!");
    assert board.post == Some("Second Post!!!");
  }

  /** A user whose requested channel is set directly, without subscribing,
      is admitted by a board offering that channel. */
  method AddScenario() {
    var board := new Board.PublicBoard("Public Board");
    var sms := new Channel(Sms);
    var _, _ := board.AddChannels([sms]);
    var doanh := new User("Doanh", "Admin");
    doanh.requestChannel := sms;
    var ok, _ := board.Add(doanh);
    assert ok && doanh in board.users;
  }

  /** Removing an admitted user succeeds; removing a user who never joined
      fails and changes nothing. */
  method RemoveScenario() {
    var board := new Board.PublicBoard("Public Board");
    var sms := new Channel(Sms);
    var _, _ := board.AddChannels([sms]);
    var doanh := new User("Doanh", "Admin");
    var kim := new User("Kim", "Admin");
    doanh.requestChannel := sms;
    var ok, events := board.Add(doanh);
    assert board.users == [doanh];
    ok, events := board.Remove(doanh);
    assert ok;
    ok, events := board.Remove(kim);
    assert !ok && board.users == [];
  }

  /** The bookkeeping flaw on live objects: a board that offers no channel
      refuses a user, yet the user records the board. */
  method RefusedButRecorded() {
    var board := new Board.PublicBoard("Public Board");
    var sms := new Channel(Sms);
    var kim := new User("Kim", "Admin");
    var events := kim.Subscribe(board, sms);
    assert events == [ChannelUnavailable(kim, Sms)];
    assert board.users == [] && board.name in kim.boards && kim.boards[board.name] == sms;
  }
}
