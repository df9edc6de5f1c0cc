/** In what order messages arrive: what other servers publish to a user who stays logged in on one server comes
    out of that server's queue, and goes to the user, in the order in which it was published. */
module ChatOrder {
  import opened Chat
  import opened ChatTheorems
  import opened Sequences

  // user u is logged in on server t all along the run
  ghost predicate Stays(c: Cluster, run: seq<Event>, t: nat, u: UserId)
    requires Possible(c, run)
    decreases run
  {
    t < |c.conns| && u in c.conns[t] && (run == [] || Stays(Next(c, run[0]), run[1..], t, u))
  }

  // the copies for u of a text sent to each of ids
  function ToUser(ids: seq<UserId>, u: UserId, text: string): seq<Addressed> {
    if ids == [] then []
    else ToUser(ids[..|ids| - 1], u, text) + if ids[|ids| - 1] == u then [Addressed(u, text)] else []
  }

  // what an event sends to u on a server other than t, from its inputs
  function SentElsewhere(c: Cluster, e: Event, t: nat, u: UserId): seq<Addressed> {
    match e
    case Chats(s, to, text) => if s != t && to == u then [Addressed(u, text)] else []
    case ChatsToGroup(s, sender, group, text) =>
      if s != t then ToUser(Recipients(GroupRows(c.b, group), sender), u, text) else []
    case _ => []
  }

  ghost function AllSentElsewhere(c: Cluster, run: seq<Event>, t: nat, u: UserId): seq<Addressed>
    requires Possible(c, run)
    decreases run
  {
    if run == [] then []
    else SentElsewhere(c, run[0], t, u) + AllSentElsewhere(Next(c, run[0]), run[1..], t, u)
  }

  // what server t hands to u in taking up a message from its queue
  ghost function TakenUp(c: Cluster, e: Event, t: nat, u: UserId): seq<Addressed>
    requires Enabled(c, e)
  {
    if e == TakesUp(t) && |c.b.handed| <= |Next(c, e).b.handed|
    then MessagesFor(Messages(Next(c, e).b.handed[|c.b.handed|..]), u) else []
  }

  ghost function AllTakenUp(c: Cluster, run: seq<Event>, t: nat, u: UserId): seq<Addressed>
    requires Possible(c, run)
    decreases run
  {
    if run == [] then [] else TakenUp(c, run[0], t, u) + AllTakenUp(Next(c, run[0]), run[1..], t, u)
  }

  // ---------------------------------------------------------------- one event

  lemma RouteQueues(w: World, m: Addressed, t: nat, u: UserId)
    requires WellFormed(w.b) && t < |w.b.queues| && u in w.b.subscribed[t] && IsOnline(w.b, u)
    ensures MessagesFor(Route(w, m).b.queues[t], u)
            == MessagesFor(w.b.queues[t], u) + if m.to == u && u !in w.conns then [m] else []
  {
    hide MessagesFor;
    MessagesForAppend(w.b.queues[t], m, u);
  }

  lemma {:induction false} RouteAllQueues(w: World, ids: seq<UserId>, text: string, t: nat, u: UserId)
    requires WellFormed(w.b) && t < |w.b.queues| && u in w.b.subscribed[t] && IsOnline(w.b, u)
    ensures t < |RouteAll(w, ids, text).b.queues|
    ensures MessagesFor(RouteAll(w, ids, text).b.queues[t], u)
            == MessagesFor(w.b.queues[t], u) + if u in w.conns then [] else ToUser(ids, u, text)
    decreases ids
  {
    hide MessagesFor, Route;
    if ids == [] {
    } else {
      var init := ids[..|ids| - 1];
      RouteAllQueues(w, init, text, t, u);
      RouteAllKeepsSessions(w, init, text);
      RouteKeepsSessions(RouteAll(w, init, text), Addressed(ids[|ids| - 1], text));
      RouteQueues(RouteAll(w, init, text), Addressed(ids[|ids| - 1], text), t, u);
    }
  }

  lemma HereOnly(c: Cluster, t: nat, u: UserId)
    requires SessionsOk(c) && u in c.b.users && t < |c.conns| && u in c.conns[t]
    ensures u in c.b.subscribed[t] && IsOnline(c.b, u)
    ensures forall s: nat :: s < |c.conns| && u in c.conns[s] ==> s == t
  {
    assert SessionOk(c, u) && LoggedInAt(c, t, u);
    forall s: nat | s < |c.conns| && u in c.conns[s]
      ensures s == t
    {
      assert LoggedInAt(c, s, u);
    }
  }

  lemma TakesUpInOrder(c: Cluster, s: nat, t: nat, u: UserId)
    requires Enabled(c, TakesUp(s)) && t < |c.conns| && u in c.conns[t]
    ensures TakenUp(c, TakesUp(s), t, u) + MessagesFor(Next(c, TakesUp(s)).b.queues[t], u) == MessagesFor(c.b.queues[t], u)
  {
    if s == t {
      var queue := c.b.queues[t];
      var m := queue[0];
      var d := Next(c, TakesUp(t));
      assert [m] + queue[1..] == queue;
      MessagesForFirst(m, queue[1..], u);
      if m.to in c.conns[t] {
        var h := Handed(c.conns[t][m.to], m);
        assert d.b.handed[|c.b.handed|..] == [h];
        assert [h][..0] == [] && Messages([h]) == [m];
        assert [m] + [] == [m];
        MessagesForFirst(m, [], u);
      } else {
        assert d.b.handed[|c.b.handed|..] == [];
      }
    }
  }

  lemma StepInOrder(c: Cluster, e: Event, t: nat, u: UserId)
    requires SessionsOk(c) && Enabled(c, e) && u in c.b.users && t < |c.conns| && u in c.conns[t]
    ensures t < |Next(c, e).b.queues| && u in Next(c, e).b.users
    ensures TakenUp(c, e, t, u) + MessagesFor(Next(c, e).b.queues[t], u)
            == MessagesFor(c.b.queues[t], u) + SentElsewhere(c, e, t, u)
  {
    hide MessagesFor, SessionsOk, Messages, RouteAll;
    HereOnly(c, t, u);
    var w := At(c, e.server);
    match e
    case Chats(s, to, text) => RouteQueues(w, Addressed(to, text), t, u);
    case ChatsToGroup(s, sender, group, text) =>
      RouteAllKeepsSessions(w, Recipients(GroupRows(w.b, group), sender), text);
      RouteAllQueues(w, Recipients(GroupRows(w.b, group), sender), text, t, u);
    case TakesUp(s) => TakesUpInOrder(c, s, t, u);
    case _ =>
  }

  // ---------------------------------------------------------------- any run

  lemma {:induction false} RunInOrder(c: Cluster, run: seq<Event>, t: nat, u: UserId)
    requires SessionsOk(c) && Possible(c, run) && Stays(c, run, t, u) && u in c.b.users
    ensures t < |Run(c, run).b.queues|
    ensures AllTakenUp(c, run, t, u) + MessagesFor(Run(c, run).b.queues[t], u)
            == MessagesFor(c.b.queues[t], u) + AllSentElsewhere(c, run, t, u)
    decreases run
  {
    hide Next, Enabled, SessionsOk, MessagesFor, TakenUp, SentElsewhere;
    SessionsAreSized(c);
    if run == [] {
    } else {
      var d := Next(c, run[0]);
      StepInOrder(c, run[0], t, u);
      StepKeepsSessions(c, run[0]);
      RunInOrder(d, run[1..], t, u);
      Carry(TakenUp(c, run[0], t, u), AllTakenUp(d, run[1..], t, u), MessagesFor(Run(c, run).b.queues[t], u),
            MessagesFor(c.b.queues[t], u), MessagesFor(d.b.queues[t], u),
            SentElsewhere(c, run[0], t, u), AllSentElsewhere(d, run[1..], t, u));
    }
  }

  lemma SessionsAreSized(c: Cluster)
    requires SessionsOk(c)
    ensures Sized(c)
  {
  }

  lemma {:induction false} UsersStay(c: Cluster, run: seq<Event>)
    requires Possible(c, run)
    ensures Run(c, run).b.users.Keys == c.b.users.Keys
    decreases run
  {
    if run == [] {
    } else {
      if run[0].ChatsToGroup? {
        var w := At(c, run[0].server);
        RouteAllKeepsSessions(w, Recipients(GroupRows(w.b, run[0].group), run[0].sender), run[0].text);
      }
      UsersStay(Next(c, run[0]), run[1..]);
    }
  }

  /** In any run of the cluster, while a registered user stays logged in on server t, what t hands them out of its queue,
      followed by what is still queued for them, is what was queued at first followed by everything the other
      servers have sent them, in that order. */
  lemma PublishedInOrder(servers: nat, users: map<UserId, Account>, groups: map<int, seq<UserId>>, offline: seq<Addressed>,
                         before: seq<Event>, after: seq<Event>, t: nat, u: UserId)
    requires NO_USER !in users && (forall id :: id in users ==> !users[id].online) && u in users
    requires Possible(Start(servers, users, groups, offline), before)
    requires var c := Run(Start(servers, users, groups, offline), before); Possible(c, after) && Stays(c, after, t, u)
    ensures var c := Run(Start(servers, users, groups, offline), before);
            && t < |c.b.queues| && t < |Run(c, after).b.queues|
            && AllTakenUp(c, after, t, u) + MessagesFor(Run(c, after).b.queues[t], u)
               == MessagesFor(c.b.queues[t], u) + AllSentElsewhere(c, after, t, u)
  {
    hide SessionsOk, Conserved, Stays;
    var start := Start(servers, users, groups, offline);
    StartOk(servers, users, groups, offline);
    RunKeeps(start, before);
    UsersStay(start, before);
    SessionsAreSized(Run(start, before));
    assert t < |Run(start, before).conns| by { StaysSomewhere(Run(start, before), after, t, u); }
    RunInOrder(Run(start, before), after, t, u);
  }

  lemma StaysSomewhere(c: Cluster, run: seq<Event>, t: nat, u: UserId)
    requires Possible(c, run) && Stays(c, run, t, u)
    ensures t < |c.conns|
  {
  }

  // ---------------------------------------------------------------- messages that are stored

  // user u is not online all along the run
  ghost predicate StaysOffline(c: Cluster, run: seq<Event>, u: UserId)
    requires Possible(c, run)
    decreases run
  {
    !IsOnline(c.b, u) && (run == [] || StaysOffline(Next(c, run[0]), run[1..], u))
  }

  // what an event brings for u, who is not online: sent on any server, or taken up out of a queue
  function Arrives(c: Cluster, e: Event, u: UserId): seq<Addressed> {
    match e
    case Chats(_, to, text) => if to == u then [Addressed(u, text)] else []
    case ChatsToGroup(_, sender, group, text) => ToUser(Recipients(GroupRows(c.b, group), sender), u, text)
    case TakesUp(s) =>
      if s < |c.b.queues| && c.b.queues[s] != [] && c.b.queues[s][0].to == u then [c.b.queues[s][0]] else []
    case _ => []
  }

  ghost function AllArrives(c: Cluster, run: seq<Event>, u: UserId): seq<Addressed>
    requires Possible(c, run)
    decreases run
  {
    if run == [] then [] else Arrives(c, run[0], u) + AllArrives(Next(c, run[0]), run[1..], u)
  }

  lemma NowhereLoggedIn(c: Cluster, u: UserId)
    requires SessionsOk(c) && u in c.b.users && !IsOnline(c.b, u)
    ensures forall s: nat :: s < |c.conns| ==> u !in c.conns[s]
  {
    assert SessionOk(c, u);
    forall s: nat | s < |c.conns|
      ensures u !in c.conns[s]
    {
      assert !LoggedInAt(c, s, u);
    }
  }

  lemma RouteStoresInOrder(w: World, m: Addressed, u: UserId)
    requires WellFormed(w.b) && !IsOnline(w.b, u) && u !in w.conns
    ensures MessagesFor(Route(w, m).b.offline, u) == MessagesFor(w.b.offline, u) + if m.to == u then [m] else []
  {
    hide MessagesFor;
    MessagesForAppend(w.b.offline, m, u);
  }

  lemma {:induction false} RouteAllStoresInOrder(w: World, ids: seq<UserId>, text: string, u: UserId)
    requires WellFormed(w.b) && !IsOnline(w.b, u) && u !in w.conns
    ensures MessagesFor(RouteAll(w, ids, text).b.offline, u) == MessagesFor(w.b.offline, u) + ToUser(ids, u, text)
    decreases ids
  {
    hide MessagesFor, Route;
    if ids == [] {
    } else {
      var init := ids[..|ids| - 1];
      RouteAllStoresInOrder(w, init, text, u);
      RouteAllKeepsSessions(w, init, text);
      RouteStoresInOrder(RouteAll(w, init, text), Addressed(ids[|ids| - 1], text), u);
    }
  }

  lemma LoginLeavesStored(c: Cluster, e: Event, u: UserId)
    requires Enabled(c, e) && e.LogsIn? && u in c.b.users && !IsOnline(Next(c, e).b, u)
    ensures MessagesFor(Next(c, e).b.offline, u) == MessagesFor(c.b.offline, u)
  {
    var w := At(c, e.server);
    LoginChanges(w, e.server, e.conn, e.id, e.password);
    if Login(w, e.server, e.conn, e.id, e.password).1.LoggedIn? {
      MessagesForOthers(c.b.offline, e.id, u);
    }
  }

  lemma StepStoresInOrder(c: Cluster, e: Event, u: UserId)
    requires SessionsOk(c) && Enabled(c, e) && u in c.b.users && !IsOnline(c.b, u) && !IsOnline(Next(c, e).b, u)
    ensures u in Next(c, e).b.users
    ensures MessagesFor(Next(c, e).b.offline, u) == MessagesFor(c.b.offline, u) + Arrives(c, e, u)
  {
    hide MessagesFor, SessionsOk, RouteAll, Login;
    NowhereLoggedIn(c, u);
    var w := At(c, e.server);
    match e
    case Chats(s, to, text) => RouteStoresInOrder(w, Addressed(to, text), u);
    case ChatsToGroup(s, sender, group, text) =>
      RouteAllKeepsSessions(w, Recipients(GroupRows(w.b, group), sender), text);
      RouteAllStoresInOrder(w, Recipients(GroupRows(w.b, group), sender), text, u);
    case TakesUp(s) => MessagesForAppend(c.b.offline, c.b.queues[s][0], u);
    case LogsIn(s, conn, id, password) =>
      LoginChanges(w, s, conn, id, password);
      LoginLeavesStored(c, e, u);
    case _ =>
  }

  lemma {:induction false} RunStoresInOrder(c: Cluster, run: seq<Event>, u: UserId)
    requires SessionsOk(c) && Possible(c, run) && StaysOffline(c, run, u) && u in c.b.users
    ensures MessagesFor(Run(c, run).b.offline, u) == MessagesFor(c.b.offline, u) + AllArrives(c, run, u)
    decreases run
  {
    hide Next, Enabled, SessionsOk, MessagesFor, Arrives;
    if run == [] {
    } else {
      var d := Next(c, run[0]);
      StepStoresInOrder(c, run[0], u);
      StepKeepsSessions(c, run[0]);
      RunStoresInOrder(d, run[1..], u);
      Associate(MessagesFor(c.b.offline, u), Arrives(c, run[0], u), AllArrives(d, run[1..], u));
    }
  }

  /** In any run of the cluster, while a registered user is not online, what is stored for them is what was stored at first
      followed by everything that any server is sent for them or takes out of a queue for them, in that order. The
      answer to their login carries it so. */
  lemma StoredInOrder(servers: nat, users: map<UserId, Account>, groups: map<int, seq<UserId>>, offline: seq<Addressed>,
                      before: seq<Event>, after: seq<Event>, u: UserId)
    requires NO_USER !in users && (forall id :: id in users ==> !users[id].online) && u in users
    requires Possible(Start(servers, users, groups, offline), before)
    requires var c := Run(Start(servers, users, groups, offline), before); Possible(c, after) && StaysOffline(c, after, u)
    ensures var c := Run(Start(servers, users, groups, offline), before);
            MessagesFor(Run(c, after).b.offline, u) == MessagesFor(c.b.offline, u) + AllArrives(c, after, u)
  {
    hide SessionsOk, Conserved, StaysOffline, MessagesFor;
    var start := Start(servers, users, groups, offline);
    StartOk(servers, users, groups, offline);
    RunKeeps(start, before);
    UsersStay(start, before);
    RunStoresInOrder(Run(start, before), after, u);
  }
}
