/** Server/web_sockets.py: the registry of open websocket connections
    that the server uses to notify clients. Sending a text is modelled as
    an event appended to a log, so what was sent, to whom and in which
    order can be stated; the fallback a caller passes for a client that is
    not connected is one of the two callables the server uses. */
module WebSockets {
  import opened Common

  /** A FastAPI `WebSocket`; only compared for identity. */
  type Socket(==, !new)

  /** `WebSocketAndId`: a dataclass, so two of them are equal when both
      the socket and the id are. */
  datatype SocketAndId = SocketAndId(socket: Socket, id: int)

  /** What the outside world observes: a text sent on a socket, or the
      error logger of `error_handler` reporting a client that is not
      connected. */
  datatype Event =
    | Sent(socket: Socket, message: string)
    | NoClient(clientId: int, message: string)

  /** The `on_no_client_found` callables: `error_handler`'s two-argument
      logger, and `broadcast`'s `lambda x: None`, which takes one argument
      and so raises TypeError if it is ever called with two. */
  datatype Fallback = LogUnidentified | IgnoreOneArgument

  const LambdaArityError := Error(TypeError, "<lambda>() takes 1 positional argument but 2 were given")
  const NotInList := Error(ValueError, "list.remove(x): x not in list")

  /** The position of the first connection with the given id, if any. */
  function FirstWithId(conns: seq<SocketAndId>, id: int): (r: Option<nat>)
    ensures r.Some? ==>
      && r.value < |conns| && conns[r.value].id == id
      && forall j :: 0 <= j < r.value ==> conns[j].id != id
    ensures r.None? <==> forall j :: 0 <= j < |conns| ==> conns[j].id != id
    decreases |conns|
  {
    if |conns| == 0 then None
    else if conns[0].id == id then Some(0)
    else
      match FirstWithId(conns[1..], id)
      case None =>
        assert forall j :: 1 <= j < |conns| ==> conns[j] == conns[1..][j - 1];
        None
      case Some(k) =>
        assert forall j :: 1 <= j < k + 1 ==> conns[j] == conns[1..][j - 1];
        Some(k + 1)
  }

  /** What one `send_text_to_client` does: the events it adds to the log
      and whether it raises. */
  datatype Delivery = Delivery(events: seq<Event>, outcome: Outcome)

  /** `send_text_to_client(client_id, message, on_no_client_found)` over
      the given connections. */
  function Send(conns: seq<SocketAndId>, clientId: int, message: string, fallback: Fallback): Delivery
  {
    match FirstWithId(conns, clientId)
    case Some(k) => Delivery([Sent(conns[k].socket, message)], Pass)
    case None =>
      match fallback
      case LogUnidentified => Delivery([NoClient(clientId, message)], Pass)
      case IgnoreOneArgument => Delivery([], Fail(LambdaArityError))
  }

  /** A connected client gets exactly one message, on the first of its
      connections in list order, and the fallback is not called. */
  lemma SendReachesFirstConnection(conns: seq<SocketAndId>, clientId: int, message: string, fallback: Fallback, k: nat)
    requires k < |conns| && conns[k].id == clientId
    ensures var d := Send(conns, clientId, message, fallback);
      exists f :: 0 <= f <= k && conns[f].id == clientId &&
        (forall j :: 0 <= j < f ==> conns[j].id != clientId) &&
        d == Delivery([Sent(conns[f].socket, message)], Pass)
  {
    var f := FirstWithId(conns, clientId).value;
    assert 0 <= f <= k;
  }

  /** A client without a connection gets nothing: the fallback is called
      once with the id and the message. */
  lemma SendFallsBack(conns: seq<SocketAndId>, clientId: int, message: string, fallback: Fallback)
    requires forall j :: 0 <= j < |conns| ==> conns[j].id != clientId
    ensures fallback == LogUnidentified ==>
      Send(conns, clientId, message, fallback) == Delivery([NoClient(clientId, message)], Pass)
    ensures fallback == IgnoreOneArgument ==>
      Send(conns, clientId, message, fallback) == Delivery([], Fail(LambdaArityError))
  {}

  /** The socket that a send to the id of connection `i` reaches: the
      first connection with that id. */
  function Recipient(conns: seq<SocketAndId>, i: nat): Socket
    requires i < |conns|
  {
    var f := FirstWithId(conns, conns[i].id);
    assert f.Some?;
    conns[f.value].socket
  }

  /** The log of `broadcast(message)` after its first `n` iterations: one
      `send_text_to_client` per connection, in list order. */
  function BroadcastLog(conns: seq<SocketAndId>, n: nat, message: string): (r: seq<Event>)
    requires n <= |conns|
    ensures |r| == n
  {
    if n == 0 then []
    else
      assert FirstWithId(conns, conns[n - 1].id).Some?;
      BroadcastLog(conns, n - 1, message) + Send(conns, conns[n - 1].id, message, IgnoreOneArgument).events
  }

  /** Broadcasting sends exactly one message per connection and never
      reaches its one-argument fallback: copy `i` goes to the first
      connection that has the id of connection `i`. */
  lemma {:induction false} BroadcastOnePerConnection(conns: seq<SocketAndId>, n: nat, message: string)
    requires n <= |conns|
    ensures forall i :: 0 <= i < n ==> BroadcastLog(conns, n, message)[i] == Sent(Recipient(conns, i), message)
  {
    if n > 0 {
      BroadcastOnePerConnection(conns, n - 1, message);
      var front := BroadcastLog(conns, n - 1, message);
      var last := Send(conns, conns[n - 1].id, message, IgnoreOneArgument).events;
      assert last == [Sent(Recipient(conns, n - 1), message)];
      assert BroadcastLog(conns, n, message) == front + last;
      forall i | 0 <= i < n
        ensures BroadcastLog(conns, n, message)[i] == Sent(Recipient(conns, i), message)
      {
        if i < n - 1 {
          assert (front + last)[i] == front[i];
        }
      }
    }
  }

  /** The id of every connection is found, so the send never falls back. */
  lemma BroadcastNeverFallsBack(conns: seq<SocketAndId>, i: nat, message: string)
    requires i < |conns|
    ensures Send(conns, conns[i].id, message, IgnoreOneArgument).outcome == Pass
  {
    assert FirstWithId(conns, conns[i].id).Some?;
  }

  predicate DistinctIds(conns: seq<SocketAndId>)
  {
    forall i, j :: 0 <= i < j < |conns| ==> conns[i].id != conns[j].id
  }

  /** With distinct ids every connection receives the message once, in
      list order. */
  lemma BroadcastReachesEveryone(conns: seq<SocketAndId>, message: string)
    requires DistinctIds(conns)
    ensures BroadcastLog(conns, |conns|, message) == seq(|conns|, i requires 0 <= i < |conns| => Sent(conns[i].socket, message))
  {
    BroadcastOnePerConnection(conns, |conns|, message);
    forall i | 0 <= i < |conns|
      ensures Recipient(conns, i) == conns[i].socket
    {
      var f := FirstWithId(conns, conns[i].id).value;
      assert f <= i;
    }
  }

  /** With a shared id, the copy sent on behalf of a later connection with
      that id goes to the first connection with it, as does its own. */
  lemma BroadcastSharedIdGoesToFirst(conns: seq<SocketAndId>, message: string, i: nat, j: nat)
    requires i < j < |conns| && conns[i].id == conns[j].id
    requires forall k :: 0 <= k < i ==> conns[k].id != conns[i].id
    ensures BroadcastLog(conns, |conns|, message)[j] == Sent(conns[i].socket, message)
    ensures BroadcastLog(conns, |conns|, message)[i] == Sent(conns[i].socket, message)
  {
    BroadcastOnePerConnection(conns, |conns|, message);
    var f := FirstWithId(conns, conns[i].id).value;
    assert f == i;
    assert Recipient(conns, j) == conns[i].socket;
  }

  /** `connect` followed by `disconnect` with the same pair gives back
      the list exactly when the pair was not connected before; otherwise
      the earlier copy goes and the new one stays at the end. */
  lemma ConnectThenDisconnect(conns: seq<SocketAndId>, p: SocketAndId)
    ensures p !in conns ==> RemoveFirst(conns + [p], p) == conns
    ensures p in conns ==> RemoveFirst(conns + [p], p) == RemoveFirst(conns, p) + [p]
  {
    var all := conns + [p];
    RemoveFirstDropsFirstOccurrence(all, p);
    var k := IndexOf(all, p);
    if p !in conns {
      assert k == |conns|;
      assert all[..k] == conns;
    } else {
      RemoveFirstDropsFirstOccurrence(conns, p);
      var m := IndexOf(conns, p);
      assert all[m] == p;
      assert k == m;
      assert all[..k] == conns[..m];
      assert all[k + 1..] == conns[m + 1..] + [p];
    }
  }

  /** `ConnectionManager`: the open connections in the order they were
      accepted, the blocking flag, and the log of what has been sent. */
  class ConnectionManager {
    var activeConnections: seq<SocketAndId>
    var isBlocking: bool
    var log: seq<Event>

    /** `is_blocking` starts as the class attribute's `False`. */
    constructor ()
      ensures activeConnections == [] && !isBlocking && log == []
    {
      activeConnections := [];
      isBlocking := false;
      log := [];
    }

    /** `connect`: the new pair goes at the end; the accept handshake is
        not modelled. */
    method Connect(socket: Socket, socketId: int)
      modifies this`activeConnections
      ensures activeConnections == old(activeConnections) + [SocketAndId(socket, socketId)]
    {
      activeConnections := activeConnections + [SocketAndId(socket, socketId)];
    }

    /** `disconnect`: `list.remove` of the pair, which raises ValueError
        when the pair is not in the list. */
    method Disconnect(socket: Socket, socketId: int) returns (r: Outcome)
      modifies this`activeConnections
      ensures var p := SocketAndId(socket, socketId);
        if p in old(activeConnections) then
          r == Pass && activeConnections == RemoveFirst(old(activeConnections), p)
        else
          r == Fail(NotInList) && activeConnections == old(activeConnections)
    {
      var p := SocketAndId(socket, socketId);
      var i := 0;
      while i < |activeConnections|
        invariant 0 <= i <= |activeConnections|
        invariant forall j :: 0 <= j < i ==> activeConnections[j] != p
      {
        if activeConnections[i] == p {
          RemoveFirstDropsFirstOccurrence(activeConnections, p);
          var k := IndexOf(activeConnections, p);
          assert k == i;
          activeConnections := activeConnections[..i] + activeConnections[i + 1..];
          return Pass;
        }
        i := i + 1;
      }
      return Fail(NotInList);
    }

    /** `unblock_clients`. */
    method UnblockClients()
      modifies this`isBlocking, this`log
      ensures !isBlocking
      ensures log == old(log) + BroadcastLog(activeConnections, |activeConnections|, "unblock")
    {
      isBlocking := false;
      Broadcast("unblock");
    }

    /** `block_clients`. */
    method BlockClients()
      modifies this`isBlocking, this`log
      ensures isBlocking
      ensures log == old(log) + BroadcastLog(activeConnections, |activeConnections|, "block")
    {
      isBlocking := true;
      Broadcast("block");
    }

    /** `send_text_to_client`: the search for the first connection with
        the id, returning right after the one send. */
    method SendTextToClient(clientId: int, message: string, onNoClientFound: Fallback) returns (r: Outcome)
      modifies this`log
      ensures log == old(log) + Send(activeConnections, clientId, message, onNoClientFound).events
      ensures r == Send(activeConnections, clientId, message, onNoClientFound).outcome
    {
      var i := 0;
      while i < |activeConnections|
        invariant 0 <= i <= |activeConnections|
        invariant forall j :: 0 <= j < i ==> activeConnections[j].id != clientId
      {
        var socketAndId := activeConnections[i];
        if socketAndId.id == clientId {
          assert FirstWithId(activeConnections, clientId) == Some(i);
          log := log + [Sent(socketAndId.socket, message)];
          return Pass;
        }
        i := i + 1;
      }
      match onNoClientFound
      case LogUnidentified =>
        log := log + [NoClient(clientId, message)];
        return Pass;
      case IgnoreOneArgument =>
        return Fail(LambdaArityError);
    }

    /** `broadcast`: one `send_text_to_client` per connection, with a
        fallback that is never reached. */
    method Broadcast(message: string)
      modifies this`log
      ensures log == old(log) + BroadcastLog(activeConnections, |activeConnections|, message)
    {
      var i := 0;
      while i < |activeConnections|
        invariant 0 <= i <= |activeConnections|
        invariant log == old(log) + BroadcastLog(activeConnections, i, message)
      {
        var connection := activeConnections[i];
        BroadcastNeverFallsBack(activeConnections, i, message);
        var r := SendTextToClient(connection.id, message, IgnoreOneArgument);
        i := i + 1;
      }
    }
  }
}
