/** What the cluster promises: a user is logged in on at most one server and the four records of it agree, and no
    message is lost or doubled, whoever goes offline while it is on its way. */
module ChatTheorems {
  import opened Chat

  datatype Cluster = Cluster(b: Backend, conns: seq<map<UserId, ConnId>>)

  datatype Event =
    | LogsIn(server: nat, conn: ConnId, id: UserId, password: string)
    | LogsOut(server: nat, id: UserId)
    | Chats(server: nat, to: UserId, text: string)
    | ChatsToGroup(server: nat, sender: UserId, group: int, text: string)
    | TakesUp(server: nat)                                   // a message out of Redis
    | Closes(server: nat, conn: ConnId, found: Option<UserId>)

  ghost predicate Sized(c: Cluster) {
    |c.conns| == |c.b.queues| == |c.b.subscribed|
  }

  function At(c: Cluster, server: nat): World
    requires server < |c.conns|
  {
    World(c.b, c.conns[server])
  }

  function Put(c: Cluster, server: nat, w: World): Cluster
    requires server < |c.conns|
  {
    Cluster(w.b, c.conns[server := w.conns])
  }

  ghost predicate Enabled(c: Cluster, e: Event) {
    && Sized(c) && e.server < |c.conns|
    && match e
       case LogsOut(s, id) => id in c.conns[s]               // a client logs out its own id
       case TakesUp(s) => c.b.queues[s] != []
       case Closes(s, conn, found) => Finds(c.conns[s], conn, found)
       case _ => true
  }

  ghost function Next(c: Cluster, e: Event): Cluster
    requires Enabled(c, e)
  {
    var w := At(c, e.server);
    Put(c, e.server,
        match e
        case LogsIn(s, conn, id, password) => Login(w, s, conn, id, password).0
        case LogsOut(s, id) => Logout(w, s, id)
        case Chats(_, to, text) => Route(w, Addressed(to, text))
        case ChatsToGroup(_, sender, group, text) => GroupChat(w, sender, group, text)
        case TakesUp(s) => RedisMessage(w, s)
        case Closes(s, _, found) => ClientClosed(w, s, found))
  }

  ghost predicate Possible(c: Cluster, run: seq<Event>)
    decreases run
  {
    run == [] || (Enabled(c, run[0]) && Possible(Next(c, run[0]), run[1..]))
  }

  ghost function Run(c: Cluster, run: seq<Event>): Cluster
    requires Possible(c, run)
    decreases run
  {
    if run == [] then c else Run(Next(c, run[0]), run[1..])
  }

  // ---------------------------------------------------------------- sessions

  ghost predicate LoggedInAt(c: Cluster, server: nat, id: UserId) {
    server < |c.conns| && id in c.conns[server]
  }

  // map entry, subscription and database flag of every registered user tell the same story; ids start at 1
  ghost predicate SessionsOk(c: Cluster) {
    && Sized(c) && NO_USER !in c.b.users
    && forall id :: id in c.b.users ==> SessionOk(c, id)
  }

  ghost predicate SessionOk(c: Cluster, id: UserId)
    requires Sized(c)
  {
    && (forall s: nat :: s < |c.conns| ==> (id in c.conns[s] <==> id in c.b.subscribed[s]))
    && (IsOnline(c.b, id) <==> exists s: nat :: LoggedInAt(c, s, id))
    && (forall s: nat, t: nat :: LoggedInAt(c, s, id) && LoggedInAt(c, t, id) ==> s == t)
  }

  // a message passes through without touching sessions
  lemma RouteKeepsSessions(w: World, m: Addressed)
    requires WellFormed(w.b)
    ensures var v := Route(w, m);
            v.conns == w.conns && v.b.users == w.b.users && v.b.subscribed == w.b.subscribed && |v.b.queues| == |w.b.queues|
  {
  }

  lemma {:induction false} RouteAllKeepsSessions(w: World, ids: seq<UserId>, text: string)
    requires WellFormed(w.b)
    ensures var v := RouteAll(w, ids, text);
            v.conns == w.conns && v.b.users == w.b.users && v.b.subscribed == w.b.subscribed && |v.b.queues| == |w.b.queues|
    decreases ids
  {
    if ids == [] {
    } else {
      RouteAllKeepsSessions(w, ids[..|ids| - 1], text);
      RouteKeepsSessions(RouteAll(w, ids[..|ids| - 1], text), Addressed(ids[|ids| - 1], text));
    }
  }

  lemma SameSessions(c: Cluster, d: Cluster)
    requires SessionsOk(c) && Sized(d) && d.conns == c.conns && d.b.users == c.b.users && d.b.subscribed == c.b.subscribed
    ensures SessionsOk(d)
  {
    forall id | id in d.b.users
      ensures SessionOk(d, id)
    {
      assert SessionOk(c, id);
      SameLogins(c, d, id);
    }
  }

  lemma SameLogins(c: Cluster, d: Cluster, id: UserId)
    requires |c.conns| == |d.conns| && forall s: nat :: s < |c.conns| ==> (id in c.conns[s] <==> id in d.conns[s])
    ensures forall s: nat :: LoggedInAt(c, s, id) == LoggedInAt(d, s, id)
    ensures (exists s: nat :: LoggedInAt(c, s, id)) <==> (exists s: nat :: LoggedInAt(d, s, id))
  {
    if s: nat :| LoggedInAt(c, s, id) {
      assert LoggedInAt(d, s, id);
    }
    if s: nat :| LoggedInAt(d, s, id) {
      assert LoggedInAt(c, s, id);
    }
  }

  // the entry and the subscription of one user on one server go, and with them the online flag
  lemma LeavesKeepsSession(c: Cluster, d: Cluster, s: nat, id: UserId, u: UserId)
    requires Sized(c) && Sized(d) && SessionOk(c, u) && |c.conns| == |d.conns| && s < |c.conns|
    requires u in c.b.users && (id in c.conns[s] || !IsOnline(c.b, id))
    requires d.conns == c.conns[s := c.conns[s] - {id}] && d.b.subscribed == c.b.subscribed[s := c.b.subscribed[s] - {id}]
    requires IsOnline(d.b, u) == (IsOnline(c.b, u) && u != id)
    ensures SessionOk(d, u)
  {
    if u != id {
      SameLogins(c, d, u);
    } else {
      forall t: nat
        ensures !LoggedInAt(d, t, u)
      {
        if LoggedInAt(c, t, u) && id in c.conns[s] {
          assert LoggedInAt(c, s, u);
        }
      }
    }
  }

  lemma LoginOpensSession(c: Cluster, d: Cluster, s: nat, id: UserId, conn: ConnId)
    requires Sized(c) && Sized(d) && SessionOk(c, id) && |c.conns| == |d.conns| && s < |c.conns|
    requires !IsOnline(c.b, id) && IsOnline(d.b, id)
    requires var entries: map<UserId, ConnId> := c.conns[s][id := conn]; d.conns == c.conns[s := entries]
    requires d.b.subscribed == c.b.subscribed[s := c.b.subscribed[s] + {id}]
    ensures SessionOk(d, id)
  {
    forall t: nat
      ensures LoggedInAt(d, t, id) <==> t == s
    {
      assert !LoggedInAt(c, t, id);
    }
    assert LoggedInAt(d, s, id);
    forall t: nat | t < |d.conns|
      ensures id in d.conns[t] <==> id in d.b.subscribed[t]
    {
      assert !LoggedInAt(c, t, id);
    }
  }

  lemma LoginKeepsSessions(c: Cluster, s: nat, conn: ConnId, id: UserId, password: string)
    requires SessionsOk(c) && s < |c.conns|
    ensures SessionsOk(Put(c, s, Login(At(c, s), s, conn, id, password).0))
  {
    hide SessionOk;
    var d := Put(c, s, Login(At(c, s), s, conn, id, password).0);
    if QueryId(c.b, id) != id || QueryPassword(c.b, id) != password || IsOnline(c.b, id) {
      assert d == c;
    } else {
      assert d.b.users.Keys == c.b.users.Keys;
      forall u | u in d.b.users
        ensures SessionOk(d, u)
      {
        assert SessionOk(c, u);
        if u == id {
          NotOnlineNotHere(c, s, id);
          LoginOpensSession(c, d, s, id, conn);
        } else {
          OtherSession(c, d, s, u);
        }
      }
    }
  }

  lemma NotOnlineNotHere(c: Cluster, s: nat, id: UserId)
    requires Sized(c) && SessionOk(c, id) && !IsOnline(c.b, id) && s < |c.conns|
    ensures id !in c.conns[s]
  {
    assert !LoggedInAt(c, s, id);
  }

  lemma OtherSession(c: Cluster, d: Cluster, s: nat, u: UserId)
    requires Sized(c) && Sized(d) && SessionOk(c, u) && |c.conns| == |d.conns| && s < |c.conns|
    requires IsOnline(d.b, u) == IsOnline(c.b, u)
    requires forall t: nat :: t < |c.conns| ==>
               (u in c.conns[t] <==> u in d.conns[t]) && (u in c.b.subscribed[t] <==> u in d.b.subscribed[t])
    ensures SessionOk(d, u)
  {
    SameLogins(c, d, u);
  }

  /** Who gets in: a registered user who is not online and knows the password, and nobody else, except that a lookup
      that finds no row answers with a default user, whose id is -1 and whose password is empty. A user who gets
      in has nothing left in the offline store. */
  lemma LoginSucceedsIff(w: World, s: nat, conn: ConnId, id: UserId, password: string)
    requires s < |w.b.subscribed|
    ensures Login(w, s, conn, id, password).1.LoggedIn?
            <==> if id in w.b.users then w.b.users[id] == Account(password, false) else id == NO_USER && password == ""
    ensures Login(w, s, conn, id, password).1.LoggedIn? ==>
              var v := Login(w, s, conn, id, password).0;
              id in v.conns && id in v.b.subscribed[s] && MessagesFor(v.b.offline, id) == []
              && (id in w.b.users ==> IsOnline(v.b, id))
  {
    MessagesNotForAre(w.b.offline, id);
    NoneFor(MessagesNotFor(w.b.offline, id), id);
  }

  /** What a login is answered: wrong password unless the id and password are those of a row (or of the default user a
      missing row stands for), already online if the row says so, and otherwise the stored messages of the user, one
      entry for each, in order, with its text; and those are what the connection is recorded as having been handed. */
  lemma LoginAnswers(w: World, s: nat, conn: ConnId, id: UserId, password: string)
    requires s < |w.b.subscribed|
    ensures var (v, ack) := Login(w, s, conn, id, password);
            var known := if id in w.b.users then w.b.users[id].password == password else id == NO_USER && password == "";
            var online := id in w.b.users && w.b.users[id].online;
            var rows := MessagesFor(w.b.offline, id);
            && (ack == WrongPassword <==> !known) && (ack == AlreadyOnline <==> known && online)
            && (ack.LoggedIn? <==> known && !online)
            && (ack.LoggedIn? ==>
                  && Carries(ack.offlineMessages, rows)
                  && |v.b.handed| == |w.b.handed| + |rows| && w.b.handed <= v.b.handed
                  && forall i :: 0 <= i < |rows| ==> v.b.handed[|w.b.handed| + i] == Handed(conn, rows[i]))
  {
    hide MessagesFor, MessagesNotFor, AllTo;
    TextsAre(MessagesFor(w.b.offline, id));
    AllToOne(conn, MessagesFor(w.b.offline, id));
  }

  /** What a login changes: nothing if it fails; otherwise this user's entry (one that is there stays), subscription, flag
      and stored messages, and nobody else's. */
  lemma LoginChanges(w: World, s: nat, conn: ConnId, id: UserId, password: string)
    requires s < |w.b.subscribed|
    ensures var (v, ack) := Login(w, s, conn, id, password);
            && (!ack.LoggedIn? ==> v == w)
            && (ack.LoggedIn? ==>
                  && id in v.conns && v.conns[id] == (if id in w.conns then w.conns[id] else conn)
                  && v.conns - {id} == w.conns - {id}
                  && v.b.subscribed == w.b.subscribed[s := w.b.subscribed[s] + {id}]
                  && v.b.users.Keys == w.b.users.Keys && v.b.users - {id} == w.b.users - {id}
                  && (id in w.b.users ==> v.b.users[id] == Account(password, true))
                  && v.b.queues == w.b.queues && v.b.groups == w.b.groups
                  && (forall i :: 0 <= i < |v.b.offline| ==> v.b.offline[i].to != id)
                  && multiset(v.b.offline) + multiset(MessagesFor(w.b.offline, id)) == multiset(w.b.offline))
  {
    MessagesNotForAre(w.b.offline, id);
    MessagesSplit(w.b.offline, id);
  }

  /** What a logout changes: the user is gone from this server and reads as offline, and nothing else is different. */
  lemma LogoutChanges(w: World, s: nat, id: UserId)
    requires s < |w.b.subscribed|
    ensures var v := Logout(w, s, id);
            && id !in v.conns && v.conns == w.conns - {id}
            && id !in v.b.subscribed[s] && v.b.subscribed == w.b.subscribed[s := w.b.subscribed[s] - {id}]
            && !IsOnline(v.b, id)
            && v.b.users.Keys == w.b.users.Keys && v.b.users - {id} == w.b.users - {id}
            && (id in w.b.users ==> v.b.users[id].password == w.b.users[id].password)
            && v.b.queues == w.b.queues && v.b.offline == w.b.offline && v.b.groups == w.b.groups && v.b.handed == w.b.handed
  {
  }

  /** The end of a connection is a logout of the registered user it is found to stand for; if it stands for nobody nothing
      changes but a subscription under the default id. */
  lemma CloseIsLogout(w: World, s: nat, conn: ConnId, found: Option<UserId>)
    requires s < |w.b.subscribed| && Finds(w.conns, conn, found)
    ensures found.Some? && found.value != NO_USER ==> ClientClosed(w, s, found) == Logout(w, s, found.value)
    ensures found.None? ==> ClientClosed(w, s, found) == w.(b := Unsubscribe(w.b, s, NO_USER))
  {
  }

  lemma {:induction false} AllToOne(conn: ConnId, rows: seq<Addressed>)
    ensures |AllTo(conn, rows)| == |rows|
    ensures forall i :: 0 <= i < |rows| ==> AllTo(conn, rows)[i] == Handed(conn, rows[i])
  {
    if rows == [] {
    } else {
      AllToOne(conn, rows[1..]);
    }
  }

  /** Logging out keeps the sessions in order exactly when the user is logged in on the server that is asked, or
      nowhere, or not registered. Any other request leaves a user logged in and marked offline. */
  lemma LogoutKeepsSessionsIff(c: Cluster, s: nat, id: UserId)
    requires SessionsOk(c) && s < |c.conns|
    ensures SessionsOk(Put(c, s, Logout(At(c, s), s, id)))
            <==> id in c.conns[s] || !IsOnline(c.b, id)
  {
    var d := Put(c, s, Logout(At(c, s), s, id));
    assert d.b.users.Keys == c.b.users.Keys;
    if id in c.b.users {
      assert SessionOk(c, id);
    }
    if id in c.conns[s] || !IsOnline(c.b, id) {
      forall u | u in d.b.users
        ensures SessionOk(d, u)
      {
        assert SessionOk(c, u);
        LeavesKeepsSession(c, d, s, id, u);
      }
    } else {
      var t: nat :| LoggedInAt(c, t, id);
      assert LoggedInAt(d, t, id) && !IsOnline(d.b, id);
      assert !SessionOk(d, id);
    }
  }

  lemma CloseKeepsSessions(c: Cluster, s: nat, conn: ConnId, found: Option<UserId>)
    requires SessionsOk(c) && s < |c.conns| && Finds(c.conns[s], conn, found)
    ensures SessionsOk(Put(c, s, ClientClosed(At(c, s), s, found)))
  {
    var id := if found.Some? then found.value else NO_USER;
    var d := Put(c, s, ClientClosed(At(c, s), s, found));
    assert d.b.users.Keys == c.b.users.Keys;
    forall u | u in d.b.users
      ensures SessionOk(d, u)
    {
      assert SessionOk(c, u);
      if found.Some? && id in c.b.users {
        LeavesKeepsSession(c, d, s, id, u);
      } else {
        SameLogins(c, d, u);
      }
    }
  }

  lemma StepKeepsSessions(c: Cluster, e: Event)
    requires SessionsOk(c) && Enabled(c, e)
    ensures SessionsOk(Next(c, e))
  {
    hide SessionsOk, Login, Logout, Route, ClientClosed;
    var w := At(c, e.server);
    match e
    case LogsIn(s, conn, id, password) => LoginKeepsSessions(c, s, conn, id, password);
    case LogsOut(s, id) => LogoutKeepsSessionsIff(c, s, id);
    case Chats(s, to, text) =>
      RouteKeepsSessions(w, Addressed(to, text));
      SameSessions(c, Next(c, e));
    case ChatsToGroup(s, sender, group, text) =>
      RouteAllKeepsSessions(w, Recipients(GroupRows(w.b, group), sender), text);
      SameSessions(c, Next(c, e));
    case TakesUp(s) => SameSessions(c, Next(c, e));
    case Closes(s, conn, found) => CloseKeepsSessions(c, s, conn, found);
  }

  // ---------------------------------------------------------------- messages

  function InFlight(queues: seq<seq<Addressed>>): multiset<Addressed> {
    if queues == [] then multiset{}
    else InFlight(queues[..|queues| - 1]) + multiset(queues[|queues| - 1])
  }

  function Subscribers(subscribed: seq<set<UserId>>, id: UserId): nat {
    if subscribed == [] then 0
    else Subscribers(subscribed[..|subscribed| - 1], id) + if id in subscribed[|subscribed| - 1] then 1 else 0
  }

  /** Every message addressed to anyone is in exactly one place: handed to a connection, in a queue, or stored. */
  ghost predicate Conserved(b: Backend) {
    b.addressed == Delivered(b) + InFlight(b.queues) + multiset(b.offline)
  }

  function Messages(handed: seq<Handed>): seq<Addressed> {
    if handed == [] then [] else Messages(handed[..|handed| - 1]) + [handed[|handed| - 1].m]
  }

  function Delivered(b: Backend): multiset<Addressed> {
    multiset(Messages(b.handed))
  }

  lemma OneMoreHanded(handed: seq<Handed>, h: Handed)
    ensures multiset(Messages(handed + [h])) == multiset(Messages(handed)) + multiset{h.m}
  {
    assert (handed + [h])[..|handed|] == handed;
  }

  lemma HandedInOrder(handed: seq<Handed>, h: Handed, rest: seq<Handed>)
    ensures handed + ([h] + rest) == (handed + [h]) + rest
  {
  }

  lemma FirstAndRest(a: multiset<Addressed>, rows: seq<Addressed>)
    requires rows != []
    ensures (a + multiset{rows[0]}) + multiset(rows[1..]) == a + multiset(rows)
  {
    assert rows == [rows[0]] + rows[1..];
  }

  lemma {:induction false} RowsHanded(handed: seq<Handed>, conn: ConnId, rows: seq<Addressed>)
    ensures multiset(Messages(handed + AllTo(conn, rows))) == multiset(Messages(handed)) + multiset(rows)
    decreases rows
  {
    hide Messages;
    if rows == [] {
      assert handed + AllTo(conn, rows) == handed;
    } else {
      var h := Handed(conn, rows[0]);
      HandedInOrder(handed, h, AllTo(conn, rows[1..]));
      RowsHanded(handed + [h], conn, rows[1..]);
      OneMoreHanded(handed, h);
      FirstAndRest(multiset(Messages(handed)), rows);
    }
  }

  lemma Regroup(a: multiset<Addressed>, b: multiset<Addressed>, c: multiset<Addressed>, d: multiset<Addressed>,
                x: multiset<Addressed>)
    requires a + b == c + d
    ensures (a + x) + b == (c + x) + d
  {
    forall m: Addressed
      ensures ((a + x) + b)[m] == ((c + x) + d)[m]
    {
      assert (a + b)[m] == (c + d)[m];
    }
  }

  lemma Cancel(a: multiset<Addressed>, b: multiset<Addressed>, x: multiset<Addressed>)
    requires a + x == b + x
    ensures a == b
  {
    forall m: Addressed
      ensures a[m] == b[m]
    {
      assert (a + x)[m] == (b + x)[m];
    }
  }

  lemma {:induction false} QueueChange(queues: seq<seq<Addressed>>, s: nat, queue: seq<Addressed>)
    requires s < |queues|
    ensures InFlight(queues[s := queue]) + multiset(queues[s]) == InFlight(queues) + multiset(queue)
    decreases queues
  {
    var n := |queues| - 1;
    var changed := queues[s := queue];
    if s < n {
      assert changed[..n] == queues[..n][s := queue] && changed[n] == queues[n];
      assert queues[..n][s] == queues[s];
      QueueChange(queues[..n], s, queue);
      Regroup(InFlight(changed[..n]), multiset(queues[s]), InFlight(queues[..n]), multiset(queue), multiset(queues[n]));
    } else {
      assert changed[..n] == queues[..n];
    }
  }

  function Copies(m: Addressed, n: nat): multiset<Addressed> {
    multiset{}[m := n]
  }

  // a published message is in as many queues as there are subscribers
  lemma {:induction false} PublishedTo(queues: seq<seq<Addressed>>, published: seq<seq<Addressed>>,
                                       subscribed: seq<set<UserId>>, m: Addressed)
    requires |published| == |queues| == |subscribed|
    requires forall i :: 0 <= i < |queues| ==>
               published[i] == if m.to in subscribed[i] then queues[i] + [m] else queues[i]
    ensures InFlight(published) == InFlight(queues) + Copies(m, Subscribers(subscribed, m.to))
    decreases queues
  {
    if queues == [] {
      assert Copies(m, 0) == multiset{};
    } else {
      var n := |queues| - 1;
      PublishedTo(queues[..n], published[..n], subscribed[..n], m);
      var k := if m.to in subscribed[n] then 1 else 0;
      OneQueue(queues[n], published[n], m, k);
      CopiesAdd(InFlight(queues[..n]), multiset(queues[n]), m, Subscribers(subscribed[..n], m.to), k);
    }
  }

  lemma OneQueue(queue: seq<Addressed>, published: seq<Addressed>, m: Addressed, k: nat)
    requires (k == 0 && published == queue) || (k == 1 && published == queue + [m])
    ensures multiset(published) == multiset(queue) + Copies(m, k)
  {
  }

  lemma CopiesAdd(a: multiset<Addressed>, b: multiset<Addressed>, m: Addressed, i: nat, j: nat)
    ensures (a + Copies(m, i)) + (b + Copies(m, j)) == (a + b) + Copies(m, i + j)
  {
  }

  /** Passing a message on keeps the account exactly when the recipient is logged in here, or not online, or has
      exactly one subscriber: publishing to nobody loses it, publishing to two doubles it. */
  lemma RouteConservesIff(w: World, m: Addressed)
    requires WellFormed(w.b) && Conserved(w.b)
    ensures Conserved(Route(w, m).b)
            <==> m.to in w.conns || !IsOnline(w.b, m.to) || Subscribers(w.b.subscribed, m.to) == 1
  {
    var v := Route(w, m);
    var stored := multiset(w.b.offline);
    if m.to in w.conns {
      OneMoreHanded(w.b.handed, Handed(w.conns[m.to], m));
    } else if IsOnline(w.b, m.to) {
      var n := Subscribers(w.b.subscribed, m.to);
      PublishedTo(w.b.queues, v.b.queues, w.b.subscribed, m);
      assert (w.b.addressed + multiset{m})[m] == w.b.addressed[m] + 1;
      assert (Delivered(w.b) + (InFlight(w.b.queues) + Copies(m, n)) + stored)[m] == w.b.addressed[m] + n;
      if n == 1 {
        assert Copies(m, 1) == multiset{m};
      }
    } else {
      assert multiset(w.b.offline + [m]) == stored + multiset{m};
    }
  }

  lemma {:induction false} AtMostOneSubscriber(subscribed: seq<set<UserId>>, id: UserId)
    requires forall i, j :: 0 <= i < |subscribed| && 0 <= j < |subscribed| && id in subscribed[i] && id in subscribed[j] ==> i == j
    ensures Subscribers(subscribed, id) == if exists i :: 0 <= i < |subscribed| && id in subscribed[i] then 1 else 0
    decreases subscribed
  {
    if subscribed == [] {
    } else {
      var n := |subscribed| - 1;
      var init := subscribed[..n];
      AtMostOneSubscriber(init, id);
      if exists i :: 0 <= i < |init| && id in init[i] {
        var i :| 0 <= i < |init| && id in init[i];
        assert id in subscribed[i];
      } else if id !in subscribed[n] {
        assert forall i :: 0 <= i < |init| ==> init[i] == subscribed[i];
      }
    }
  }

  lemma OnlineHasOneSubscriber(c: Cluster, id: UserId)
    requires SessionsOk(c)
    ensures IsOnline(c.b, id) ==> Subscribers(c.b.subscribed, id) == 1
  {
    if IsOnline(c.b, id) {
      assert SessionOk(c, id);
      forall i, j | 0 <= i < |c.b.subscribed| && 0 <= j < |c.b.subscribed| && id in c.b.subscribed[i] && id in c.b.subscribed[j]
        ensures i == j
      {
        assert LoggedInAt(c, i, id) && LoggedInAt(c, j, id);
      }
      AtMostOneSubscriber(c.b.subscribed, id);
      var s: nat :| LoggedInAt(c, s, id);
      assert id in c.b.subscribed[s];
    }
  }

  // a message published to an online user reaches one server
  ghost predicate OnlineMeansSubscribed(b: Backend) {
    forall id :: IsOnline(b, id) ==> Subscribers(b.subscribed, id) == 1
  }

  lemma {:induction false} RouteAllConserves(w: World, ids: seq<UserId>, text: string)
    requires WellFormed(w.b) && Conserved(w.b) && OnlineMeansSubscribed(w.b)
    ensures Conserved(RouteAll(w, ids, text).b)
    decreases ids
  {
    if ids == [] {
    } else {
      var init := ids[..|ids| - 1];
      RouteAllConserves(w, init, text);
      RouteAllKeepsSessions(w, init, text);
      RouteConservesIff(RouteAll(w, init, text), Addressed(ids[|ids| - 1], text));
    }
  }

  lemma LoginConserves(w: World, s: nat, conn: ConnId, id: UserId, password: string)
    requires s < |w.b.subscribed| && Conserved(w.b)
    ensures Conserved(Login(w, s, conn, id, password).0.b)
  {
    hide InFlight, Messages, AllTo, MessagesFor, MessagesNotFor;
    var b := Login(w, s, conn, id, password).0.b;
    var rows, others := MessagesFor(w.b.offline, id), MessagesNotFor(w.b.offline, id);
    if b.handed != w.b.handed || b.offline != w.b.offline {
      MessagesSplit(w.b.offline, id);
      RowsHanded(w.b.handed, conn, rows);
      Exchange(Delivered(w.b), multiset(rows), InFlight(w.b.queues), multiset(others));
      assert b.handed == w.b.handed + AllTo(conn, rows) && b.offline == others;
    }
    assert b.addressed == w.b.addressed && b.queues == w.b.queues;
  }

  lemma Exchange(a: multiset<Addressed>, x: multiset<Addressed>, b: multiset<Addressed>, y: multiset<Addressed>)
    ensures a + b + (x + y) == (a + x) + b + y
  {
  }

  lemma TakeUpConserves(w: World, s: nat)
    requires s < |w.b.queues| && w.b.queues[s] != [] && Conserved(w.b)
    ensures Conserved(RedisMessage(w, s).b)
  {
    var queue := w.b.queues[s];
    assert queue == [queue[0]] + queue[1..];
    assert multiset(queue) == multiset{queue[0]} + multiset(queue[1..]);
    QueueChange(w.b.queues, s, queue[1..]);
    var rest := w.b.queues[s := queue[1..]];
    assert InFlight(rest) + multiset{queue[0]} + multiset(queue[1..]) == InFlight(w.b.queues) + multiset(queue[1..]);
    Cancel(InFlight(rest) + multiset{queue[0]}, InFlight(w.b.queues), multiset(queue[1..]));
    assert multiset(w.b.offline + [queue[0]]) == multiset(w.b.offline) + multiset{queue[0]};
    if queue[0].to in w.conns {
      OneMoreHanded(w.b.handed, Handed(w.conns[queue[0].to], queue[0]));
    }
  }

  lemma StepConserves(c: Cluster, e: Event)
    requires SessionsOk(c) && Conserved(c.b) && Enabled(c, e)
    ensures Conserved(Next(c, e).b)
  {
    var w := At(c, e.server);
    forall id | IsOnline(c.b, id)
      ensures Subscribers(c.b.subscribed, id) == 1
    {
      OnlineHasOneSubscriber(c, id);
    }
    match e
    case LogsIn(s, conn, id, password) => LoginConserves(w, s, conn, id, password);
    case LogsOut(s, id) =>
    case Chats(s, to, text) => RouteConservesIff(w, Addressed(to, text));
    case ChatsToGroup(s, sender, group, text) => RouteAllConserves(w, Recipients(GroupRows(w.b, group), sender), text);
    case TakesUp(s) => TakeUpConserves(w, s);
    case Closes(s, conn, found) =>
  }

  // ---------------------------------------------------------------- what the records mean

  // the messages an event addresses, from its inputs: one to each row of the group that is not the sender
  function Addresses(c: Cluster, e: Event): multiset<Addressed> {
    match e
    case Chats(_, to, text) => multiset{Addressed(to, text)}
    case ChatsToGroup(_, sender, group, text) =>
      if group in c.b.groups then ToGroup(c.b.groups[group], sender, text) else multiset{}
    case _ => multiset{}
  }

  function ToGroup(rows: seq<UserId>, sender: UserId, text: string): multiset<Addressed> {
    if rows == [] then multiset{}
    else (if rows[0] == sender then multiset{} else multiset{Addressed(rows[0], text)}) + ToGroup(rows[1..], sender, text)
  }

  function ToEach(ids: seq<UserId>, text: string): multiset<Addressed> {
    if ids == [] then multiset{} else ToEach(ids[..|ids| - 1], text) + multiset{Addressed(ids[|ids| - 1], text)}
  }

  lemma {:induction false} ToEachFirst(id: UserId, ids: seq<UserId>, text: string)
    ensures ToEach([id] + ids, text) == multiset{Addressed(id, text)} + ToEach(ids, text)
    decreases ids
  {
    var all := [id] + ids;
    if ids == [] {
      assert all[..|all| - 1] == [];
    } else {
      assert all[..|all| - 1] == [id] + ids[..|ids| - 1];
      ToEachFirst(id, ids[..|ids| - 1], text);
    }
  }

  lemma {:induction false} ToGroupIsToEach(rows: seq<UserId>, sender: UserId, text: string)
    ensures ToEach(Recipients(rows, sender), text) == ToGroup(rows, sender, text)
  {
    if rows == [] {
    } else {
      ToGroupIsToEach(rows[1..], sender, text);
      if rows[0] != sender {
        ToEachFirst(rows[0], Recipients(rows[1..], sender), text);
      } else {
        assert [] + Recipients(rows[1..], sender) == Recipients(rows[1..], sender);
      }
    }
  }

  // what a handler adds to the record of messages handed out goes to the connection its server has for the recipient
  ghost predicate HandsOver(conns: map<UserId, ConnId>, before: seq<Handed>, after: seq<Handed>) {
    && before <= after
    && forall i :: |before| <= i < |after| ==> after[i].m.to in conns && conns[after[i].m.to] == after[i].conn
  }

  // the answer to a login carries messages to that user, on the connection that asked
  ghost predicate Answers(conn: ConnId, id: UserId, before: seq<Handed>, after: seq<Handed>) {
    && before <= after
    && forall i :: |before| <= i < |after| ==> after[i].m.to == id && after[i].conn == conn
  }

  lemma {:induction false} RouteAllRecords(w: World, ids: seq<UserId>, text: string)
    requires WellFormed(w.b)
    ensures var v := RouteAll(w, ids, text);
            && v.b.addressed == w.b.addressed + ToEach(ids, text) && v.conns == w.conns
            && HandsOver(w.conns, w.b.handed, v.b.handed)
    decreases ids
  {
    if ids == [] {
    } else {
      var init := ids[..|ids| - 1];
      RouteAllRecords(w, init, text);
    }
  }

  lemma LoginRecords(w: World, s: nat, conn: ConnId, id: UserId, password: string)
    requires s < |w.b.subscribed|
    ensures Answers(conn, id, w.b.handed, Login(w, s, conn, id, password).0.b.handed)
  {
    hide MessagesFor, AllTo, MessagesNotFor;
    MessagesForAre(w.b.offline, id);
    AllToOne(conn, MessagesFor(w.b.offline, id));
  }

  /** The records are what their names say: every event adds to the first exactly the messages its inputs address,
      and to the second only messages to users, on the connection their server has for them (for a login,
      the stored messages of the user on the connection that logs in). */
  lemma StepRecords(c: Cluster, e: Event)
    requires Enabled(c, e)
    ensures var d := Next(c, e);
            && d.b.addressed == c.b.addressed + Addresses(c, e)
            && if e.LogsIn? then Answers(e.conn, e.id, c.b.handed, d.b.handed)
               else HandsOver(c.conns[e.server], c.b.handed, d.b.handed)
  {
    hide Answers, InFlight, MessagesFor, AllTo, MessagesNotFor, RouteAll;
    StepAddresses(c, e);
    var w := At(c, e.server);
    match e
    case ChatsToGroup(s, sender, group, text) => RouteAllRecords(w, Recipients(GroupRows(w.b, group), sender), text);
    case LogsIn(s, conn, id, password) => LoginRecords(w, s, conn, id, password);
    case _ =>
  }

  // everything the run's events address
  ghost function AddressedBy(c: Cluster, run: seq<Event>): multiset<Addressed>
    requires Possible(c, run)
    decreases run
  {
    if run == [] then multiset{} else Addresses(c, run[0]) + AddressedBy(Next(c, run[0]), run[1..])
  }

  lemma StepAddresses(c: Cluster, e: Event)
    requires Enabled(c, e)
    ensures Next(c, e).b.addressed == c.b.addressed + Addresses(c, e)
  {
    var w := At(c, e.server);
    if e.ChatsToGroup? {
      RouteAllRecords(w, Recipients(GroupRows(w.b, e.group), e.sender), e.text);
      ToGroupIsToEach(GroupRows(w.b, e.group), e.sender, e.text);
    }
  }

  lemma {:induction false} RunAddresses(c: Cluster, run: seq<Event>)
    requires Possible(c, run)
    ensures Run(c, run).b.addressed == c.b.addressed + AddressedBy(c, run)
    decreases run
  {
    hide Next, Enabled, Addresses;
    if run == [] {
    } else {
      StepAddresses(c, run[0]);
      RunAddresses(Next(c, run[0]), run[1..]);
    }
  }

  // a cluster nobody is logged in to, with whatever the database had stored
  function Start(servers: nat, users: map<UserId, Account>, groups: map<int, seq<UserId>>, offline: seq<Addressed>): Cluster {
    Cluster(Backend(users, groups, offline, seq(servers, _ => {}), seq(servers, _ => []), multiset(offline), []),
            seq(servers, _ => map[]))
  }

  lemma {:induction false} EmptyQueues(queues: seq<seq<Addressed>>)
    requires forall i :: 0 <= i < |queues| ==> queues[i] == []
    ensures InFlight(queues) == multiset{}
    decreases queues
  {
    if queues == [] {
    } else {
      EmptyQueues(queues[..|queues| - 1]);
    }
  }

  lemma StartOk(servers: nat, users: map<UserId, Account>, groups: map<int, seq<UserId>>, offline: seq<Addressed>)
    requires NO_USER !in users && forall id :: id in users ==> !users[id].online
    ensures SessionsOk(Start(servers, users, groups, offline)) && Conserved(Start(servers, users, groups, offline).b)
  {
    EmptyQueues(Start(servers, users, groups, offline).b.queues);
  }

  lemma {:induction false} RunKeeps(c: Cluster, run: seq<Event>)
    requires SessionsOk(c) && Conserved(c.b) && Possible(c, run)
    ensures SessionsOk(Run(c, run)) && Conserved(Run(c, run).b)
    decreases run
  {
    hide Next, Enabled, SessionsOk, Conserved;
    if run == [] {
    } else {
      StepKeepsSessions(c, run[0]);
      StepConserves(c, run[0]);
      RunKeeps(Next(c, run[0]), run[1..]);
    }
  }

  /** In every reachable state of the cluster a registered user is marked online exactly when some server's map
      holds them, no two servers hold the same user, subscriptions coincide with the maps; and every message
      addressed to anyone has been handed to a connection, is in a queue, or is stored, once. */
  lemma ClusterIsSound(servers: nat, users: map<UserId, Account>, groups: map<int, seq<UserId>>, offline: seq<Addressed>,
                       run: seq<Event>)
    requires NO_USER !in users && forall id :: id in users ==> !users[id].online
    requires Possible(Start(servers, users, groups, offline), run)
    ensures var c := Run(Start(servers, users, groups, offline), run);
            && SessionsOk(c)
            && multiset(offline) + AddressedBy(Start(servers, users, groups, offline), run)
               == Delivered(c.b) + InFlight(c.b.queues) + multiset(c.b.offline)
  {
    RunAddresses(Start(servers, users, groups, offline), run);
    StartOk(servers, users, groups, offline);
    RunKeeps(Start(servers, users, groups, offline), run);
  }

  /** Once the queues are empty, what was addressed to a user is what their connections got and what is stored for
      them, message by message. */
  lemma DrainedAccount(servers: nat, users: map<UserId, Account>, groups: map<int, seq<UserId>>, offline: seq<Addressed>,
                       run: seq<Event>, m: Addressed)
    requires NO_USER !in users && forall id :: id in users ==> !users[id].online
    requires Possible(Start(servers, users, groups, offline), run)
    requires var c := Run(Start(servers, users, groups, offline), run);
             forall i :: 0 <= i < |c.b.queues| ==> c.b.queues[i] == []
    ensures var b := Run(Start(servers, users, groups, offline), run).b;
            (multiset(offline) + AddressedBy(Start(servers, users, groups, offline), run))[m]
            == Delivered(b)[m] + multiset(MessagesFor(b.offline, m.to))[m]
  {
    ClusterIsSound(servers, users, groups, offline, run);
    var b := Run(Start(servers, users, groups, offline), run).b;
    EmptyQueues(b.queues);
    MessagesSplit(b.offline, m.to);
    MessagesNotForAre(b.offline, m.to);
    assert m !in MessagesNotFor(b.offline, m.to);
  }
}
