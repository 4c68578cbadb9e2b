/**
 * The Socket.IO relay server (`server.js`): the users joined under their
 * socket ids, the message log the server keeps in memory, and what each
 * event sends to the clients.
 *
 * Emissions (`io.emit` to every client, `socket.emit` to one) are appended
 * to the log `emitted`. Message ids (`Date.now()`) are parameters;
 * timestamps, logging, HTTP and CORS wiring are left out.
 */
module RelayServer {
  import opened Wrappers
  import opened OrderedMaps

  /** The most messages the server keeps. */
  const LogLimit: nat := 100
  /** The most messages a joining client is sent. */
  const ReplayLimit: nat := 50

  datatype User = User(id: string, username: string, color: string)

  datatype ChatMessage = ChatMessage(id: string, username: string, message: string, color: string)

  datatype Emission =
    | UsersList(users: seq<User>)                           // io.emit("users", ...)
    | Replay(socket: string, messages: seq<ChatMessage>)    // socket.emit("messages", ...)
    | Broadcast(message: ChatMessage)                       // io.emit("message", ...)

  /** `s.slice(-n)` for `n > 0`: the last `n` elements, or all of them when there are fewer. */
  function Last<T>(s: seq<T>, n: nat): (r: seq<T>)
    requires n > 0
    ensures |r| == if |s| <= n then |s| else n
    ensures r == s[|s| - |r|..]
  {
    if |s| <= n then s else s[|s| - n..]
  }

  /** Keeping the last `n` after each append is keeping the last `n` of everything appended. */
  lemma LastSnoc<T>(s: seq<T>, x: T, n: nat)
    requires n > 0
    ensures Last(Last(s, n) + [x], n) == Last(s + [x], n)
  {
    var t := Last(s, n);
    assert (s + [x])[|s + [x]| - |Last(s + [x], n)|..] == Last(s + [x], n);
    if |s| > n {
      assert t + [x] == (s + [x])[|s| - n..];
    }
  }

  /** The last `m` of the last `n` are the last `m`, for `m <= n`. */
  lemma LastOfLast<T>(s: seq<T>, n: nat, m: nat)
    requires 0 < m <= n
    ensures Last(Last(s, n), m) == Last(s, m)
  {
  }

  class Server {
    var users: OrderedMap<string, User>
    /** The `messages` array. */
    var messages: seq<ChatMessage>
    /** Every message the server has accepted since it started. */
    ghost var history: seq<ChatMessage>
    var emitted: seq<Emission>

    /** The user map is a well-formed ordered map, and the log is the most recent `LogLimit` accepted messages. */
    ghost predicate Valid()
      reads this
    {
      users.Valid() && messages == Last(history, LogLimit)
    }

    constructor ()
      ensures Valid()
      ensures users.keys == [] && messages == [] && history == [] && emitted == []
    {
      users := Empty();
      messages := [];
      history := [];
      emitted := [];
      assert Last<ChatMessage>([], LogLimit) == [];
    }

    /**
     * `join`: the user is stored, or replaced, under the socket id; every
     * client gets the users list, and the joiner the most recent
     * `ReplayLimit` messages, in order.
     */
    method Join(socket: string, username: string, color: string)
      requires Valid()
      modifies this`users, this`emitted
      ensures Valid()
      ensures users == old(users).Set(socket, User(socket, username, color))
      ensures emitted == old(emitted) + [UsersList(users.Values()), Replay(socket, Last(history, ReplayLimit))]
    {
      users := users.Set(socket, User(socket, username, color));
      LastOfLast(history, LogLimit, ReplayLimit);
      emitted := emitted + [UsersList(users.Values()), Replay(socket, Last(messages, ReplayLimit))];
    }

    /**
     * `message`: from a socket that has not joined, nothing happens; else the
     * message, with the sender's stored name and colour, is appended to the
     * log, which is cut back to its last `LogLimit` entries, and sent to
     * every client.
     */
    method Message(socket: string, text: string, id: string)
      requires Valid()
      modifies this`messages, this`history, this`emitted
      ensures Valid()
      ensures socket !in old(users.entries) ==>
        messages == old(messages) && history == old(history) && emitted == old(emitted)
      ensures socket in old(users.entries) ==>
        var m := ChatMessage(id, users.entries[socket].username, text, users.entries[socket].color);
        history == old(history) + [m] && emitted == old(emitted) + [Broadcast(m)]
      ensures |messages| <= LogLimit
    {
      var user := users.Get(socket);
      if user.None? {
        return;
      }
      var m := ChatMessage(id, user.value.username, text, user.value.color);
      LastSnoc(history, m, LogLimit);
      messages := messages + [m];
      if |messages| > LogLimit {
        messages := messages[|messages| - LogLimit..];
      }
      history := history + [m];
      emitted := emitted + [Broadcast(m)];
    }

    /** `disconnect`: a joined socket's user is removed and the users list re-sent; an unknown socket changes nothing. */
    method Disconnect(socket: string)
      requires Valid()
      modifies this`users, this`emitted
      ensures Valid()
      ensures socket !in old(users.entries) ==> users == old(users) && emitted == old(emitted)
      ensures socket in old(users.entries) ==>
        users == old(users).Delete(socket) && emitted == old(emitted) + [UsersList(users.Values())]
    {
      if socket in users.entries {
        users := users.Delete(socket);
        emitted := emitted + [UsersList(users.Values())];
      }
    }
  }

  /** Two messages from a joined socket: both are broadcast and the second is last in the log. */
  method TwoMessages(server: Server, socket: string, a: string, b: string)
    requires server.Valid() && socket in server.users.entries
    modifies server
    ensures server.Valid() && server.users == old(server.users)
    ensures server.history == old(server.history) + [
      ChatMessage("1", server.users.entries[socket].username, a, server.users.entries[socket].color),
      ChatMessage("2", server.users.entries[socket].username, b, server.users.entries[socket].color)]
    ensures server.messages[|server.messages| - 1].message == b
  {
    server.Message(socket, a, "1");
    server.Message(socket, b, "2");
  }
}
