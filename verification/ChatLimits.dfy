/** Where the cluster's promises end: which requests break them and by which run, what a closed connection may
    still be handed, and when a message waits in the store for a user who is online. */
module ChatLimits {
  import opened Chat
  import opened ChatTheorems

  // ---------------------------------------------------------------- handlers that are not atomic

  // loginout or clientCloseException up to the point where it has unsubscribed and not yet told the database
  function HalfLogout(w: World, server: nat, id: UserId): World
    requires server < |w.b.subscribed|
  {
    World(Unsubscribe(w.b, server, id), w.conns - {id})
  }

  // only who is subscribed counts
  lemma {:induction false} SameSubscribers(a: seq<set<UserId>>, b: seq<set<UserId>>, id: UserId)
    requires |a| == |b| && forall i :: 0 <= i < |a| ==> (id in a[i] <==> id in b[i])
    ensures Subscribers(a, id) == Subscribers(b, id)
    decreases a
  {
    if a == [] {
    } else {
      SameSubscribers(a[..|a| - 1], b[..|b| - 1], id);
    }
  }

  /** What goes wrong while a logout, or the handling of a closed connection, is half done: a message sent on any server,
      this one included, is lost exactly when it is for the registered user who is leaving. Nobody is subscribed for
      them any more and the database still calls them online. */
  lemma HalfLogoutLosesIff(c: Cluster, s: nat, t: nat, id: UserId, m: Addressed)
    requires SessionsOk(c) && Conserved(c.b) && s < |c.conns| && t < |c.conns|
    requires id in c.conns[s]
    ensures var half := Put(c, s, HalfLogout(At(c, s), s, id));
            && Conserved(half.b)
            && (Conserved(Route(At(half, t), m).b) <==> m.to != id || id !in c.b.users)
  {
    hide Conserved, Route;
    var half := Put(c, s, HalfLogout(At(c, s), s, id));
    assert Conserved(half.b) by { SameAccount(c.b, half.b); }
    RouteConservesIff(At(half, t), m);
    if m.to != id {
      OnlineHasOneSubscriber(c, m.to);
      SameSubscribers(c.b.subscribed, half.b.subscribed, m.to);
    } else if id in c.b.users {
      LeftByHalf(c, s, t, id);
    }
  }

  lemma SameAccount(a: Backend, b: Backend)
    requires Conserved(a) && b.addressed == a.addressed && b.handed == a.handed && b.queues == a.queues && b.offline == a.offline
    ensures Conserved(b)
  {
  }

  lemma LeftByHalf(c: Cluster, s: nat, t: nat, id: UserId)
    requires SessionsOk(c) && s < |c.conns| && t < |c.conns| && id in c.conns[s] && id in c.b.users
    ensures var half := Put(c, s, HalfLogout(At(c, s), s, id));
            id !in half.conns[t] && IsOnline(half.b, id) && Subscribers(half.b.subscribed, id) == 0
  {
    var half := Put(c, s, HalfLogout(At(c, s), s, id));
    assert SessionOk(c, id);
    assert LoggedInAt(c, s, id);
    assert t != s ==> !LoggedInAt(c, t, id);
    forall i | 0 <= i < |half.b.subscribed|
      ensures id !in half.b.subscribed[i]
    {
      assert i != s ==> !LoggedInAt(c, i, id);
    }
    AtMostOneSubscriber(half.b.subscribed, id);
  }

  // ---------------------------------------------------------------- one connection, two users

  // no connection of a server stands for two users
  predicate OneIdEach(conns: map<UserId, ConnId>) {
    forall a, b :: a in conns && b in conns && conns[a] == conns[b] ==> a == b
  }

  predicate Holds(conns: map<UserId, ConnId>, conn: ConnId) {
    exists id :: id in conns && conns[id] == conn
  }

  /** A closed connection leaves no entry behind exactly when it stood for one user at most: the search stops at the
      first entry it meets. */
  lemma CloseClearsIff(w: World, s: nat, conn: ConnId, found: Option<UserId>)
    requires s < |w.b.subscribed| && Finds(w.conns, conn, found)
    ensures !Holds(ClientClosed(w, s, found).conns, conn)
            <==> forall a, b :: a in w.conns && b in w.conns && w.conns[a] == conn && w.conns[b] == conn ==> a == b
  {
    var after := ClientClosed(w, s, found).conns;
    if found.Some? {
      forall id | id in w.conns && w.conns[id] == conn && id != found.value
        ensures Holds(after, conn)
      {
        assert id in after && after[id] == conn;
      }
    }
  }

  // along the run nobody logs in on a connection that already stands for somebody
  ghost predicate FreshLogins(c: Cluster, run: seq<Event>)
    requires Possible(c, run)
    decreases run
  {
    run == []
    || ((run[0].LogsIn? ==> !Holds(c.conns[run[0].server], run[0].conn)) && FreshLogins(Next(c, run[0]), run[1..]))
  }

  ghost predicate AllOneIdEach(c: Cluster) {
    forall s :: 0 <= s < |c.conns| ==> OneIdEach(c.conns[s])
  }

  lemma StepKeepsOneIdEach(c: Cluster, e: Event)
    requires Enabled(c, e) && AllOneIdEach(c) && (e.LogsIn? ==> !Holds(c.conns[e.server], e.conn))
    ensures AllOneIdEach(Next(c, e))
  {
    var w := At(c, e.server);
    assert OneIdEach(w.conns);
    if e.ChatsToGroup? {
      RouteAllKeepsSessions(w, Recipients(GroupRows(w.b, e.group), e.sender), e.text);
    }
    assert OneIdEach(Next(c, e).conns[e.server]);
  }

  /** If nobody logs in twice on one connection, a connection that closes is gone from its server's map, in every run. */
  lemma {:induction false} ClosedMeansGone(c: Cluster, run: seq<Event>, s: nat, conn: ConnId, found: Option<UserId>)
    requires Possible(c, run) && FreshLogins(c, run) && AllOneIdEach(c)
    requires Enabled(Run(c, run), Closes(s, conn, found))
    ensures !Holds(Next(Run(c, run), Closes(s, conn, found)).conns[s], conn)
    decreases run
  {
    if run == [] {
      assert OneIdEach(c.conns[s]);
      CloseClearsIff(At(c, s), s, conn, found);
    } else {
      StepKeepsOneIdEach(c, run[0]);
      ClosedMeansGone(Next(c, run[0]), run[1..], s, conn, found);
    }
  }

  // what server s hands to connections along the run
  ghost function HandedOn(c: Cluster, run: seq<Event>, s: nat): seq<Handed>
    requires Possible(c, run)
    decreases run
  {
    if run == [] then []
    else
      var d := Next(c, run[0]);
      (if run[0].server == s && |c.b.handed| <= |d.b.handed| then d.b.handed[|c.b.handed|..] else [])
      + HandedOn(d, run[1..], s)
  }

  // nobody logs in on that connection of that server
  predicate NoLoginOn(run: seq<Event>, s: nat, conn: ConnId) {
    forall i :: 0 <= i < |run| && run[i].LogsIn? ==> run[i].server != s || run[i].conn != conn
  }

  predicate Given(handed: seq<Handed>, conn: ConnId) {
    exists i :: 0 <= i < |handed| && handed[i].conn == conn
  }

  lemma StepStaysGone(c: Cluster, e: Event, s: nat, conn: ConnId)
    requires Enabled(c, e) && s < |c.conns| && !Holds(c.conns[s], conn)
    requires e.LogsIn? ==> e.server != s || e.conn != conn
    ensures s < |Next(c, e).conns| && !Holds(Next(c, e).conns[s], conn)
    ensures c.b.handed <= Next(c, e).b.handed
    ensures e.server == s ==> !Given(Next(c, e).b.handed[|c.b.handed|..], conn)
  {
    StepRecords(c, e);
    if e.ChatsToGroup? {
      var w := At(c, e.server);
      RouteAllKeepsSessions(w, Recipients(GroupRows(w.b, e.group), e.sender), e.text);
    }
  }

  lemma {:induction false} GoneGetsNothing(c: Cluster, run: seq<Event>, s: nat, conn: ConnId)
    requires Possible(c, run) && s < |c.conns| && !Holds(c.conns[s], conn) && NoLoginOn(run, s, conn)
    ensures !Given(HandedOn(c, run, s), conn)
    decreases run
  {
    hide Next, Enabled, Holds, Given;
    if run == [] {
      assert !Given([], conn) by { NothingGiven(conn); }
    } else {
      StepStaysGone(c, run[0], s, conn);
      var d := Next(c, run[0]);
      assert NoLoginOn(run[1..], s, conn) by {
        assert forall i :: 0 <= i < |run[1..]| ==> run[1..][i] == run[i + 1];
      }
      GoneGetsNothing(d, run[1..], s, conn);
      var first := if run[0].server == s then d.b.handed[|c.b.handed|..] else [];
      NothingGiven(conn);
      NotGivenEither(first, HandedOn(d, run[1..], s), conn);
    }
  }

  lemma NothingGiven(conn: ConnId)
    ensures !Given([], conn)
  {
  }

  lemma NotGivenEither(a: seq<Handed>, b: seq<Handed>, conn: ConnId)
    requires !Given(a, conn) && !Given(b, conn)
    ensures !Given(a + b, conn)
  {
  }

  /** If nobody logs in twice on one connection, a server hands nothing to a connection of its own that has closed,
      from the closing on and for ever. */
  lemma ClosedGetsNothing(c: Cluster, before: seq<Event>, s: nat, conn: ConnId, found: Option<UserId>, after: seq<Event>)
    requires Possible(c, before) && FreshLogins(c, before) && AllOneIdEach(c)
    requires Enabled(Run(c, before), Closes(s, conn, found))
    requires Possible(Next(Run(c, before), Closes(s, conn, found)), after) && NoLoginOn(after, s, conn)
    ensures !Given(HandedOn(Next(Run(c, before), Closes(s, conn, found)), after, s), conn)
  {
    ClosedMeansGone(c, before, s, conn, found);
    GoneGetsNothing(Next(Run(c, before), Closes(s, conn, found)), after, s, conn);
  }

  // two users of one server, and one user of two
  const TWO_USERS: Cluster := Start(1, map[1 := Account("a", false), 2 := Account("b", false)], map[], [])
  const TWO_SERVERS: Cluster := Start(2, map[1 := Account("a", false)], map[], [])

  /** The proviso is needed: two users log in on one connection and it closes; the second stays online, and a
      message to them is handed to the closed connection. */
  lemma ClosedConnectionIsHanded()
    ensures var run := [LogsIn(0, 10, 1, "a"), LogsIn(0, 10, 2, "b"), Closes(0, 10, Some(1)), Chats(0, 2, "hi")];
            && Possible(TWO_USERS, run)
            && var d := Run(TWO_USERS, run);
               IsOnline(d.b, 2) && d.b.handed == [Handed(10, Addressed(2, "hi"))]
  {
    hide Next, Possible, Run, Route, ClientClosed;
    var e1, e2, e3, e4 := LogsIn(0, 10, 1, "a"), LogsIn(0, 10, 2, "b"), Closes(0, 10, Some(1)), Chats(0, 2, "hi");
    var c1 := Next(TWO_USERS, e1);
    LogsInAlone(TWO_USERS, 0, 10, 1, "a");
    var c2 := Next(c1, e2);
    LogsInAlone(c1, 0, 10, 2, "b");
    var c3 := Next(c2, e3);
    ClosesOne(c2, 0, 10, 1, 2);
    var c4 := Next(c3, e4);
    ChatsHere(c3, 0, 2, "hi");
    RunOn(c3, e4, []);
    RunOn(c2, e3, [e4]);
    RunOn(c1, e2, [e3, e4]);
    RunOn(TWO_USERS, e1, [e2, e3, e4]);
    assert [e1] + [e2, e3, e4] == [e1, e2, e3, e4] && [e2] + [e3, e4] == [e2, e3, e4] && [e3] + [e4] == [e3, e4];
    assert [e4] + [] == [e4];
    EndsAt(c4);
  }

  lemma RunOn(c: Cluster, e: Event, rest: seq<Event>)
    requires Enabled(c, e)
    ensures Possible(c, [e] + rest) <==> Possible(Next(c, e), rest)
    ensures Possible(Next(c, e), rest) ==> Run(c, [e] + rest) == Run(Next(c, e), rest)
  {
    assert ([e] + rest)[1..] == rest;
  }

  lemma EndsAt(c: Cluster)
    ensures Possible(c, []) && Run(c, []) == c
  {
  }

  // a login of a user for whom nothing is stored
  lemma LogsInAlone(c: Cluster, s: nat, conn: ConnId, id: UserId, password: string)
    requires Enabled(c, LogsIn(s, conn, id, password)) && c.b.offline == [] && id !in c.conns[s]
    requires id in c.b.users && c.b.users[id] == Account(password, false)
    ensures var d := Next(c, LogsIn(s, conn, id, password));
            var entries: map<UserId, ConnId> := c.conns[s][id := conn];
            && Sized(d) && d.conns == c.conns[s := entries] && d.b.subscribed == c.b.subscribed[s := c.b.subscribed[s] + {id}]
            && d.b.queues == c.b.queues && d.b.offline == [] && d.b.handed == c.b.handed
            && d.b.users == c.b.users[id := Account(password, true)]
  {
    assert c.b.handed + [] == c.b.handed;
  }

  lemma ClosesOne(c: Cluster, s: nat, conn: ConnId, id: UserId, other: UserId)
    requires Enabled(c, Closes(s, conn, Some(id))) && id != other && other in c.conns[s] && IsOnline(c.b, other)
    ensures var d := Next(c, Closes(s, conn, Some(id)));
            && Sized(d) && |d.conns| == |c.conns| && other in d.conns[s] && d.conns[s][other] == c.conns[s][other]
            && d.b.handed == c.b.handed && IsOnline(d.b, other)
  {
  }

  lemma ChatsHere(c: Cluster, s: nat, id: UserId, text: string)
    requires Enabled(c, Chats(s, id, text)) && id in c.conns[s]
    ensures var d := Next(c, Chats(s, id, text));
            d.b.handed == c.b.handed + [Handed(c.conns[s][id], Addressed(id, text))] && d.b.users == c.b.users
  {
  }

  /** And so is the one on logouts: a user logs in on server 0 and server 1 is asked to log them out. They stay
      logged in, marked offline, and can log in once more, on server 1: two servers hold them. */
  lemma ForeignLogoutSplitsSession()
    ensures Possible(TWO_SERVERS, [LogsIn(0, 10, 1, "a")])
    ensures var c := Run(TWO_SERVERS, [LogsIn(0, 10, 1, "a")]);
            var d := Put(c, 1, Logout(At(c, 1), 1, 1));
            && SessionsOk(c) && !SessionsOk(d) && LoggedInAt(d, 0, 1) && !IsOnline(d.b, 1)
            && Enabled(d, LogsIn(1, 20, 1, "a"))
            && LoggedInAt(Next(d, LogsIn(1, 20, 1, "a")), 0, 1) && LoggedInAt(Next(d, LogsIn(1, 20, 1, "a")), 1, 1)
  {
    var e := LogsIn(0, 10, 1, "a");
    var c := Next(TWO_SERVERS, e);
    assert [e][1..] == [];
    assert Possible(TWO_SERVERS, [e]) && Run(TWO_SERVERS, [e]) == c;
    StartOk(2, map[1 := Account("a", false)], map[], []);
    StepKeepsSessions(TWO_SERVERS, e);
    assert c.conns == [map[1 := 10], map[]] && IsOnline(c.b, 1);
    LogoutKeepsSessionsIff(c, 1, 1);
    var d := Put(c, 1, Logout(At(c, 1), 1, 1));
    assert d.conns == [map[1 := 10], map[]];
  }

  // ---------------------------------------------------------------- stored for a user who is online

  // a login that lets the user in
  ghost predicate GetsIn(c: Cluster, e: Event, id: UserId)
    requires Enabled(c, e)
  {
    e.LogsIn? && e.id == id && Login(At(c, e.server), e.server, e.conn, id, e.password).1.LoggedIn?
  }

  ghost predicate GetsInLater(c: Cluster, run: seq<Event>, id: UserId)
    requires Possible(c, run)
    decreases run
  {
    run != [] && (GetsIn(c, run[0], id) || GetsInLater(Next(c, run[0]), run[1..], id))
  }

  // a server takes a message for the user out of its queue and does not have them
  ghost predicate Misses(c: Cluster, e: Event, id: UserId)
    requires Enabled(c, e)
  {
    e.TakesUp? && c.b.queues[e.server][0].to == id && id !in c.conns[e.server]
  }

  // that happens along the run, and the user does not log in after it
  ghost predicate MissedSinceLogin(c: Cluster, run: seq<Event>, id: UserId)
    requires Possible(c, run)
    decreases run
  {
    run != []
    && ((Misses(c, run[0], id) && !GetsInLater(Next(c, run[0]), run[1..], id))
        || MissedSinceLogin(Next(c, run[0]), run[1..], id))
  }

  predicate HasStored(b: Backend, id: UserId) {
    MessagesFor(b.offline, id) != []
  }

  lemma RouteStores(w: World, m: Addressed, id: UserId)
    requires WellFormed(w.b) && IsOnline(w.b, id)
    ensures MessagesFor(Route(w, m).b.offline, id) == MessagesFor(w.b.offline, id)
  {
    MessagesForAppend(w.b.offline, m, id);
  }

  lemma {:induction false} RouteAllStores(w: World, ids: seq<UserId>, text: string, id: UserId)
    requires WellFormed(w.b) && IsOnline(w.b, id)
    ensures MessagesFor(RouteAll(w, ids, text).b.offline, id) == MessagesFor(w.b.offline, id)
    decreases ids
  {
    if ids == [] {
    } else {
      var init := ids[..|ids| - 1];
      RouteAllStores(w, init, text, id);
      RouteAllKeepsSessions(w, init, text);
      RouteStores(RouteAll(w, init, text), Addressed(ids[|ids| - 1], text), id);
    }
  }

  lemma LoginStores(w: World, s: nat, conn: ConnId, other: UserId, password: string, id: UserId)
    requires s < |w.b.subscribed|
    ensures var (v, ack) := Login(w, s, conn, other, password);
            MessagesFor(v.b.offline, id) == if ack.LoggedIn? && other == id then [] else MessagesFor(w.b.offline, id)
  {
    if other == id {
      LoginSucceedsIff(w, s, conn, id, password);
    } else {
      MessagesForOthers(w.b.offline, other, id);
    }
  }

  // for a user who is online after the step
  lemma StepStores(c: Cluster, e: Event, id: UserId)
    requires Enabled(c, e) && IsOnline(Next(c, e).b, id)
    ensures HasStored(Next(c, e).b, id) <==> Misses(c, e, id) || (HasStored(c.b, id) && !GetsIn(c, e, id))
  {
    hide MessagesFor, MessagesNotFor, Login;
    var w := At(c, e.server);
    match e
    case LogsIn(s, conn, other, password) => LoginStores(w, s, conn, other, password, id);
    case LogsOut(s, other) =>
    case Chats(s, to, text) => RouteStores(w, Addressed(to, text), id);
    case ChatsToGroup(s, sender, group, text) =>
      RouteAllKeepsSessions(w, Recipients(GroupRows(w.b, group), sender), text);
      RouteAllStores(w, Recipients(GroupRows(w.b, group), sender), text, id);
    case TakesUp(s) => MessagesForAppend(c.b.offline, c.b.queues[s][0], id);
    case Closes(s, conn, found) =>
  }

  // a user comes online by logging in and in no other way
  lemma ComesOnline(c: Cluster, e: Event, id: UserId)
    requires Enabled(c, e) && !IsOnline(c.b, id) && IsOnline(Next(c, e).b, id)
    ensures GetsIn(c, e, id)
  {
    if e.ChatsToGroup? {
      var w := At(c, e.server);
      RouteAllKeepsSessions(w, Recipients(GroupRows(w.b, e.group), e.sender), e.text);
    }
  }

  lemma {:induction false} OnlineMeansGotIn(c: Cluster, run: seq<Event>, id: UserId)
    requires Possible(c, run) && !IsOnline(c.b, id) && IsOnline(Run(c, run).b, id)
    ensures GetsInLater(c, run, id)
    decreases run
  {
    hide Next, Enabled, GetsIn, IsOnline;
    if run == [] {
      assert false;
    } else if IsOnline(Next(c, run[0]).b, id) {
      ComesOnline(c, run[0], id);
    } else {
      OnlineMeansGotIn(Next(c, run[0]), run[1..], id);
    }
  }

  lemma {:induction false} StoredAlong(c: Cluster, run: seq<Event>, id: UserId)
    requires Possible(c, run) && IsOnline(Run(c, run).b, id)
    ensures HasStored(Run(c, run).b, id)
            <==> MissedSinceLogin(c, run, id) || (HasStored(c.b, id) && !GetsInLater(c, run, id))
    decreases run
  {
    hide Next, Enabled, GetsIn, Misses, HasStored, IsOnline;
    if run == [] {
    } else {
      var d := Next(c, run[0]);
      StoredAlong(d, run[1..], id);
      if IsOnline(d.b, id) {
        StepStores(c, run[0], id);
      } else {
        OnlineMeansGotIn(d, run[1..], id);
      }
    }
  }

  /** When messages wait in the store for a user who is online: exactly when, since the user's last login, some server
      has taken a message for them out of its queue after they had left it. There they stay until the next login. */
  lemma StoredWhileOnlineIff(servers: nat, users: map<UserId, Account>, groups: map<int, seq<UserId>>,
                             offline: seq<Addressed>, run: seq<Event>, id: UserId)
    requires forall u :: u in users ==> !users[u].online
    requires Possible(Start(servers, users, groups, offline), run)
    requires IsOnline(Run(Start(servers, users, groups, offline), run).b, id)
    ensures HasStored(Run(Start(servers, users, groups, offline), run).b, id)
            <==> MissedSinceLogin(Start(servers, users, groups, offline), run, id)
  {
    StoredAlong(Start(servers, users, groups, offline), run, id);
    OnlineMeansGotIn(Start(servers, users, groups, offline), run, id);
  }

  /** The witness: a user is sent a message from the other server, moves there before it is taken up, and is online
      while it lies in the store. */
  lemma MovedUserMissesMessage()
    ensures var run := [LogsIn(0, 10, 1, "a"), Chats(1, 1, "hi"), LogsOut(0, 1), LogsIn(1, 20, 1, "a"), TakesUp(0)];
            && Possible(TWO_SERVERS, run)
            && var d := Run(TWO_SERVERS, run);
               IsOnline(d.b, 1) && d.b.offline == [Addressed(1, "hi")] && d.b.handed == []
  {
    hide Next, Possible, Run, Login, Logout, Route, RedisMessage;
    var e1, e2, e3 := LogsIn(0, 10, 1, "a"), Chats(1, 1, "hi"), LogsOut(0, 1);
    var e4, e5 := LogsIn(1, 20, 1, "a"), TakesUp(0);
    var c1 := Next(TWO_SERVERS, e1);
    LogsInAlone(TWO_SERVERS, 0, 10, 1, "a");
    var c2 := Next(c1, e2);
    ChatsAway(c1, 1, 0, 1, "hi");
    var c3 := Next(c2, e3);
    LogsOutAlone(c2, 0, 1);
    var c4 := Next(c3, e4);
    LogsInAlone(c3, 1, 20, 1, "a");
    var c5 := Next(c4, e5);
    TakesUpMissing(c4, 0);
    RunOn(c4, e5, []);
    RunOn(c3, e4, [e5]);
    RunOn(c2, e3, [e4, e5]);
    RunOn(c1, e2, [e3, e4, e5]);
    RunOn(TWO_SERVERS, e1, [e2, e3, e4, e5]);
    assert [e1] + [e2, e3, e4, e5] == [e1, e2, e3, e4, e5] && [e2] + [e3, e4, e5] == [e2, e3, e4, e5];
    assert [e3] + [e4, e5] == [e3, e4, e5] && [e4] + [e5] == [e4, e5];
    assert [e5] + [] == [e5];
    EndsAt(c5);
  }

  // a message to a user of server t, sent on server s
  lemma ChatsAway(c: Cluster, s: nat, t: nat, id: UserId, text: string)
    requires Enabled(c, Chats(s, id, text)) && t < |c.conns| && id !in c.conns[s] && IsOnline(c.b, id)
    requires id in c.b.subscribed[t]
    ensures var d := Next(c, Chats(s, id, text));
            && Sized(d) && d.conns == c.conns && d.b.subscribed == c.b.subscribed && d.b.users == c.b.users
            && d.b.offline == c.b.offline && d.b.handed == c.b.handed
            && d.b.queues[t] == c.b.queues[t] + [Addressed(id, text)]
  {
  }

  lemma LogsOutAlone(c: Cluster, s: nat, id: UserId)
    requires Enabled(c, LogsOut(s, id)) && id in c.b.users
    ensures var d := Next(c, LogsOut(s, id));
            && Sized(d) && d.conns == c.conns[s := c.conns[s] - {id}] && d.b.queues == c.b.queues
            && d.b.users == c.b.users[id := c.b.users[id].(online := false)]
            && d.b.offline == c.b.offline && d.b.handed == c.b.handed
  {
  }

  lemma TakesUpMissing(c: Cluster, s: nat)
    requires Enabled(c, TakesUp(s)) && c.b.queues[s][0].to !in c.conns[s]
    ensures var d := Next(c, TakesUp(s));
            d.b.offline == c.b.offline + [c.b.queues[s][0]] && d.b.users == c.b.users && d.b.handed == c.b.handed
  {
  }
}
