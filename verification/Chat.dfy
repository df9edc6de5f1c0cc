/** The chat cluster: several servers, each with its own map from logged-in users to connections, sharing one
    database and one Redis. What a handler does to its server's map and to the shared part is a function here;
    class ChatService is proved against these functions and the theorems are about runs of them. */
module Chat {

  type UserId = int
  type ConnId = nat

  datatype Option<T> = None | Some(value: T)

  // a chat message on its way to one user
  datatype Addressed = Addressed(to: UserId, text: string)

  // a row of the user table
  datatype Account = Account(password: string, online: bool)

  // the id a default-constructed User carries
  const NO_USER: UserId := -1

  // conn->send of a chat message, on its own or in the answer to a login
  datatype Handed = Handed(conn: ConnId, m: Addressed)

  /** Database and Redis, and two records of what has passed: messages addressed to users, and messages handed to
      connections. */
  datatype Backend = Backend(
    users: map<UserId, Account>,
    groups: map<int, seq<UserId>>,        // rows of groupuser, by group
    offline: seq<Addressed>,              // rows of offlinemessage
    subscribed: seq<set<UserId>>,         // channels each server is subscribed to
    queues: seq<seq<Addressed>>,          // published and not yet taken up, by server
    addressed: multiset<Addressed>,
    handed: seq<Handed>)

  // what a handler of one server works on: the shared part and its own _userConnMap
  datatype World = World(b: Backend, conns: map<UserId, ConnId>)

  datatype Ack = LoggedIn(offlineMessages: seq<string>) | WrongPassword | AlreadyOnline | NoAck

  // UserModel::query: the row, or a default User
  function QueryId(b: Backend, id: UserId): UserId {
    if id in b.users then id else NO_USER
  }

  function QueryPassword(b: Backend, id: UserId): string {
    if id in b.users then b.users[id].password else ""
  }

  predicate IsOnline(b: Backend, id: UserId) {
    id in b.users && b.users[id].online
  }

  // UserModel::updateState: no row, no effect
  function SetOnline(b: Backend, id: UserId, online: bool): Backend {
    if id in b.users then b.(users := b.users[id := b.users[id].(online := online)]) else b
  }

  function Subscribe(b: Backend, server: nat, id: UserId): Backend
    requires server < |b.subscribed|
  {
    b.(subscribed := b.subscribed[server := b.subscribed[server] + {id}])
  }

  function Unsubscribe(b: Backend, server: nat, id: UserId): Backend
    requires server < |b.subscribed|
  {
    b.(subscribed := b.subscribed[server := b.subscribed[server] - {id}])
  }

  // PUBLISH reaches every subscriber there is at that moment
  function Publish(b: Backend, m: Addressed): Backend
    requires |b.queues| == |b.subscribed|
  {
    b.(queues := seq(|b.queues|, i requires 0 <= i < |b.queues| =>
      if m.to in b.subscribed[i] then b.queues[i] + [m] else b.queues[i]))
  }

  function MessagesFor(rows: seq<Addressed>, id: UserId): seq<Addressed> {
    if rows == [] then [] else (if rows[0].to == id then [rows[0]] else []) + MessagesFor(rows[1..], id)
  }

  function MessagesNotFor(rows: seq<Addressed>, id: UserId): seq<Addressed> {
    if rows == [] then [] else (if rows[0].to != id then [rows[0]] else []) + MessagesNotFor(rows[1..], id)
  }

  lemma {:induction false} MessagesSplit(rows: seq<Addressed>, id: UserId)
    ensures multiset(MessagesFor(rows, id)) + multiset(MessagesNotFor(rows, id)) == multiset(rows)
  {
    if rows == [] {
    } else {
      MessagesSplit(rows[1..], id);
      assert rows == [rows[0]] + rows[1..];
    }
  }

  lemma {:induction false} MessagesForAre(rows: seq<Addressed>, id: UserId)
    ensures forall i :: 0 <= i < |MessagesFor(rows, id)| ==> MessagesFor(rows, id)[i].to == id
  {
    if rows == [] {
    } else {
      MessagesForAre(rows[1..], id);
    }
  }

  lemma {:induction false} MessagesNotForAre(rows: seq<Addressed>, id: UserId)
    ensures forall i :: 0 <= i < |MessagesNotFor(rows, id)| ==> MessagesNotFor(rows, id)[i].to != id
  {
    if rows == [] {
    } else {
      MessagesNotForAre(rows[1..], id);
    }
  }

  lemma {:induction false} NoneFor(rows: seq<Addressed>, id: UserId)
    requires forall i :: 0 <= i < |rows| ==> rows[i].to != id
    ensures MessagesFor(rows, id) == []
  {
    if rows == [] {
    } else {
      NoneFor(rows[1..], id);
    }
  }

  function For(m: Addressed, id: UserId): seq<Addressed> {
    if m.to == id then [m] else []
  }

  lemma MessagesForFirst(m: Addressed, rest: seq<Addressed>, id: UserId)
    ensures MessagesFor([m] + rest, id) == For(m, id) + MessagesFor(rest, id)
  {
    assert ([m] + rest)[1..] == rest;
  }

  lemma {:induction false} MessagesForAppend(rows: seq<Addressed>, m: Addressed, id: UserId)
    ensures MessagesFor(rows + [m], id) == MessagesFor(rows, id) + For(m, id)
    decreases rows
  {
    hide MessagesFor, For;
    if rows == [] {
      MessagesForFirst(m, [], id);
      assert [m] + [] == [m] && rows + [m] == [m];
      assert MessagesFor([], id) == [] by { NoneFor([], id); }
    } else {
      var rest := rows[1..];
      MessagesForAppend(rest, m, id);
      MessagesForFirst(rows[0], rest, id);
      MessagesForFirst(rows[0], rest + [m], id);
      assert [rows[0]] + rest == rows && [rows[0]] + (rest + [m]) == rows + [m];
      assert For(rows[0], id) + (MessagesFor(rest, id) + For(m, id)) == (For(rows[0], id) + MessagesFor(rest, id)) + For(m, id);
    }
  }

  lemma {:induction false} MessagesForOthers(rows: seq<Addressed>, other: UserId, id: UserId)
    requires other != id
    ensures MessagesFor(MessagesNotFor(rows, other), id) == MessagesFor(rows, id)
  {
    if rows == [] {
    } else {
      MessagesForOthers(rows[1..], other, id);
      var rest := MessagesNotFor(rows[1..], other);
      if rows[0].to != other {
        assert MessagesNotFor(rows, other) == [rows[0]] + rest && ([rows[0]] + rest)[1..] == rest;
      } else {
        assert MessagesNotFor(rows, other) == rest;
      }
    }
  }

  function Texts(rows: seq<Addressed>): seq<string> {
    if rows == [] then [] else [rows[0].text] + Texts(rows[1..])
  }

  // one entry for each row, in order, with its text
  predicate Carries(texts: seq<string>, rows: seq<Addressed>) {
    |texts| == |rows| && forall i :: 0 <= i < |rows| ==> texts[i] == rows[i].text
  }

  lemma {:induction false} TextsAre(rows: seq<Addressed>)
    ensures Carries(Texts(rows), rows)
  {
    if rows == [] {
    } else {
      TextsAre(rows[1..]);
    }
  }

  function AllTo(conn: ConnId, rows: seq<Addressed>): seq<Handed> {
    if rows == [] then [] else [Handed(conn, rows[0])] + AllTo(conn, rows[1..])
  }

  predicate WellFormed(b: Backend) {
    |b.queues| == |b.subscribed|
  }

  // ---------------------------------------------------------------- handlers

  function Login(w: World, server: nat, conn: ConnId, id: UserId, password: string): (World, Ack)
    requires server < |w.b.subscribed|
  {
    if QueryId(w.b, id) != id || QueryPassword(w.b, id) != password then (w, WrongPassword)
    else if IsOnline(w.b, id) then (w, AlreadyOnline)
    else
      // insert keeps an entry that is already there
      var conns := if id in w.conns then w.conns else w.conns[id := conn];
      var b := SetOnline(Subscribe(w.b, server, id), id, true);
      var rows := MessagesFor(b.offline, id);
      (World(b.(offline := MessagesNotFor(b.offline, id), handed := b.handed + AllTo(conn, rows)), conns),
       LoggedIn(Texts(rows)))
  }

  function Logout(w: World, server: nat, id: UserId): World
    requires server < |w.b.subscribed|
  {
    World(SetOnline(Unsubscribe(w.b, server, id), id, false), w.conns - {id})
  }

  // one recipient of oneChat or groupChat
  function Route(w: World, m: Addressed): World
    requires WellFormed(w.b)
  {
    var b := w.b.(addressed := w.b.addressed + multiset{m});
    if m.to in w.conns then w.(b := b.(handed := b.handed + [Handed(w.conns[m.to], m)]))
    else if IsOnline(b, m.to) then w.(b := Publish(b, m))
    else w.(b := b.(offline := b.offline + [m]))
  }

  // GroupModel::queryGroupUsers: the rows of the group, without the sender
  function Recipients(rows: seq<UserId>, sender: UserId): seq<UserId> {
    if rows == [] then [] else (if rows[0] != sender then [rows[0]] else []) + Recipients(rows[1..], sender)
  }

  function GroupRows(b: Backend, group: int): seq<UserId> {
    if group in b.groups then b.groups[group] else []
  }

  function RouteAll(w: World, to: seq<UserId>, text: string): (v: World)
    requires WellFormed(w.b)
    ensures WellFormed(v.b)
  {
    if to == [] then w
    else Route(RouteAll(w, to[..|to| - 1], text), Addressed(to[|to| - 1], text))
  }

  function GroupChat(w: World, sender: UserId, group: int, text: string): World
    requires WellFormed(w.b)
  {
    RouteAll(w, Recipients(GroupRows(w.b, group), sender), text)
  }

  // the oldest message published to this server is taken up
  function RedisMessage(w: World, server: nat): World
    requires server < |w.b.queues| && w.b.queues[server] != []
  {
    var m := w.b.queues[server][0];
    var b := w.b.(queues := w.b.queues[server := w.b.queues[server][1..]]);
    if m.to in w.conns then w.(b := b.(handed := b.handed + [Handed(w.conns[m.to], m)]))
    else w.(b := b.(offline := b.offline + [m]))
  }

  // clientCloseException, once the search of the map has ended with `found`
  function ClientClosed(w: World, server: nat, found: Option<UserId>): World
    requires server < |w.b.subscribed|
  {
    var id := if found.Some? then found.value else NO_USER;
    var conns := if found.Some? then w.conns - {id} else w.conns;
    var b := Unsubscribe(w.b, server, id);
    World(if id != NO_USER then SetOnline(b, id, false) else b, conns)
  }

  // the search stops at some entry of the closed connection if there is one
  predicate Finds(conns: map<UserId, ConnId>, conn: ConnId, found: Option<UserId>) {
    if found.Some? then found.value in conns && conns[found.value] == conn
    else forall id :: id in conns ==> conns[id] != conn
  }
}

/** The service itself: one object per server, the database and Redis in an object they share. */
module ChatServices {
  import opened Chat

  class Store {
    var users: map<UserId, Account>
    var groups: map<int, seq<UserId>>
    var offline: seq<Addressed>
    var subscribed: seq<set<UserId>>
    var queues: seq<seq<Addressed>>
    ghost var addressed: multiset<Addressed>
    ghost var handed: seq<Handed>

    constructor (servers: nat, users: map<UserId, Account>, groups: map<int, seq<UserId>>, offline: seq<Addressed>)
      ensures View() == Backend(users, groups, offline, seq(servers, _ => {}), seq(servers, _ => []), multiset(offline), [])
    {
      this.users, this.groups, this.offline := users, groups, offline;
      subscribed, queues := seq(servers, _ => {}), seq(servers, _ => []);
      addressed, handed := multiset(offline), [];
    }

    ghost function View(): Backend
      reads this
    {
      Backend(users, groups, offline, subscribed, queues, addressed, handed)
    }

    function IsOnline(id: UserId): bool
      reads this
    {
      id in users && users[id].online
    }

    method UpdateState(id: UserId, online: bool)
      modifies this`users
      ensures View() == SetOnline(old(View()), id, online)
      // the account reads as told if there is one; no account comes, goes or changes otherwise
      ensures IsOnline(id) <==> id in old(users) && online
      ensures users.Keys == old(users).Keys && users - {id} == old(users) - {id}
      ensures id in users ==> users[id].password == old(users)[id].password
    {
      if id in users {
        users := users[id := users[id].(online := online)];
      }
    }

    // OfflineMsgModel::query and remove
    method TakeOffline(id: UserId) returns (rows: seq<Addressed>)
      modifies this`offline
      // nothing is lost or doubled, all that is taken is the user's, and none of theirs is left
      ensures multiset(rows) + multiset(offline) == multiset(old(offline))
      ensures forall i :: 0 <= i < |rows| ==> rows[i].to == id
      ensures forall i :: 0 <= i < |offline| ==> offline[i].to != id
      ensures rows == MessagesFor(old(offline), id) && offline == MessagesNotFor(old(offline), id)
    {
      MessagesSplit(offline, id);
      MessagesForAre(offline, id);
      MessagesNotForAre(offline, id);
      rows := MessagesFor(offline, id);
      offline := MessagesNotFor(offline, id);
    }

    // Redis::publish; every subscribed server gets the message
    method Publish(m: Addressed)
      requires |queues| == |subscribed|
      modifies this`queues
      ensures View() == Chat.Publish(old(View()), m)
    {
      var i := 0;
      while i < |subscribed|
        invariant 0 <= i <= |subscribed| == |queues|
        invariant forall j :: 0 <= j < i ==>
                    queues[j] == if m.to in subscribed[j] then old(queues)[j] + [m] else old(queues)[j]
        invariant forall j :: i <= j < |queues| ==> queues[j] == old(queues)[j]
      {
        if m.to in subscribed[i] {
          queues := queues[i := queues[i] + [m]];
        }
        i := i + 1;
      }
      assert queues == Chat.Publish(old(View()), m).queues;
    }
  }

  class ChatService {
    const server: nat
    const store: Store
    var userConnMap: map<UserId, ConnId>

    constructor (server: nat, store: Store)
      requires |store.queues| == |store.subscribed| && server < |store.queues|
      ensures Valid() && userConnMap == map[] && this.server == server && this.store == store
    {
      this.server, this.store := server, store;
      userConnMap := map[];
    }

    ghost predicate Valid()
      reads this, store
    {
      |store.queues| == |store.subscribed| && server < |store.queues|
    }

    ghost function View(): World
      reads this, store
    {
      World(store.View(), userConnMap)
    }

    method Login(conn: ConnId, id: UserId, password: string) returns (ack: Ack)
      requires Valid()
      modifies this, store
      ensures Valid() && (View(), ack) == Chat.Login(old(View()), server, conn, id, password)
      ensures ack.LoggedIn? ==> Carries(ack.offlineMessages, MessagesFor(old(store.offline), id))
    {
      var userId := if id in store.users then id else NO_USER;
      var pwd := if id in store.users then store.users[id].password else "";
      if userId == id && pwd == password {
        if store.IsOnline(id) {
          ack := AlreadyOnline;
        } else {
          if id !in userConnMap {
            userConnMap := userConnMap[id := conn];
          }
          store.subscribed := store.subscribed[server := store.subscribed[server] + {id}];
          assert store.View() == Subscribe(old(store.View()), server, id);
          store.UpdateState(id, true);
          ack := AnswerLogin(conn, id);
        }
      } else {
        ack := WrongPassword;
      }
    }

    // the answer to a successful login carries the stored messages, which are then deleted
    method AnswerLogin(conn: ConnId, id: UserId) returns (ack: Ack)
      modifies store`offline, store`handed
      ensures var b := old(store.View());
              var rows := MessagesFor(b.offline, id);
              ack == LoggedIn(Texts(rows)) && Carries(Texts(rows), rows)
              && store.View() == b.(offline := MessagesNotFor(b.offline, id), handed := b.handed + AllTo(conn, rows))
    {
      var rows := store.TakeOffline(id);
      store.handed := store.handed + AllTo(conn, rows);
      TextsAre(rows);
      ack := LoggedIn(Texts(rows));
    }

    method Logout(id: UserId)
      requires Valid()
      modifies this, store
      ensures Valid() && View() == Chat.Logout(old(View()), server, id)
    {
      if id in userConnMap {
        userConnMap := userConnMap - {id};
      }
      store.subscribed := store.subscribed[server := store.subscribed[server] - {id}];
      store.UpdateState(id, false);
      assert userConnMap == old(userConnMap) - {id};
    }

    method OneChat(to: UserId, text: string)
      requires Valid()
      modifies store
      ensures Valid() && View() == Route(old(View()), Addressed(to, text))
    {
      var m := Addressed(to, text);
      store.addressed := store.addressed + multiset{m};
      if to in userConnMap {
        store.handed := store.handed + [Handed(userConnMap[to], m)];
        return;
      }
      if store.IsOnline(to) {
        store.Publish(m);
        return;
      }
      store.offline := store.offline + [m];
    }

    method GroupChat(sender: UserId, group: int, text: string)
      requires Valid()
      modifies store
      ensures Valid() && View() == Chat.GroupChat(old(View()), sender, group, text)
    {
      var to := Recipients(if group in store.groups then store.groups[group] else [], sender);
      for i := 0 to |to|
        invariant Valid() && View() == RouteAll(old(View()), to[..i], text)
      {
        OneChat(to[i], text);
        assert to[..i + 1][..i] == to[..i];
      }
      assert to[..|to|] == to;
    }

    method HandleRedisMessage()
      requires Valid() && store.queues[server] != []
      modifies store
      ensures Valid() && View() == RedisMessage(old(View()), server)
    {
      var m := store.queues[server][0];
      store.queues := store.queues[server := store.queues[server][1..]];
      if m.to in userConnMap {
        store.handed := store.handed + [Handed(userConnMap[m.to], m)];
        return;
      }
      store.offline := store.offline + [m];
    }

    // `order` is the order in which the hash map happens to list its keys
    method ClientCloseException(conn: ConnId, order: seq<UserId>) returns (found: Option<UserId>)
      requires Valid()
      requires forall i :: 0 <= i < |order| ==> order[i] in userConnMap
      requires forall id :: id in userConnMap ==> exists i :: 0 <= i < |order| && order[i] == id
      modifies this, store
      ensures Valid() && Finds(old(userConnMap), conn, found)
      ensures View() == ClientClosed(old(View()), server, found)
    {
      found := None;
      var userId := NO_USER;
      for i := 0 to |order|
        invariant found.None? && userConnMap == old(userConnMap) && unchanged(store)
        invariant forall j :: 0 <= j < i ==> userConnMap[order[j]] != conn
      {
        if userConnMap[order[i]] == conn {
          userId := order[i];
          found := Some(userId);
          userConnMap := userConnMap - {userId};
          break;
        }
      }
      store.subscribed := store.subscribed[server := store.subscribed[server] - {userId}];
      if userId != NO_USER {
        store.UpdateState(userId, false);
      }
    }
  }
}
