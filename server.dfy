/**
 * The in-process form of the chat relay: one WebSocket server whose per-socket
 * event handlers relay each inbound message to the other open clients.
 *
 * A client is its socket's identity together with its ready state; the
 * `client.send` calls a handler performs are returned, in order, as a log.
 * The server's client set is maintained by the WebSocket library and is given
 * to each event as the sequence of clients it holds at that moment.
 */
module Server {
  import opened Collections

  /** The identity of one socket object (what `!==` compares). */
  type ClientId = nat

  /** The four ready states of a WebSocket. */
  datatype ReadyState = Connecting | Open | Closing | Closed

  datatype Client = Client(id: ClientId, readyState: ReadyState)

  /** One `send` call: the socket it was made on and the string sent. */
  datatype Send = Send(to: ClientId, data: string)

  const Welcome := "Welcome to the WebSocket chat!"

  /** The events a socket's handlers react to. */
  datatype Event =
    | Connection(ws: ClientId)
    | Message(ws: ClientId, data: string)
    | Close(ws: ClientId)
    | Error(ws: ClientId, error: string)

  /** The broadcast filter: every client except the sender, and only open ones. */
  predicate Receives(c: Client, sender: ClientId) {
    c.id != sender && c.readyState == Open
  }

  /** No two clients of the server's set are the same socket. */
  predicate DistinctIds(clients: seq<Client>) {
    forall j, k :: 0 <= j < k < |clients| ==> clients[j].id != clients[k].id
  }

  /** No socket appears twice as the target of a send. */
  predicate DistinctTargets(sent: seq<Send>) {
    forall j, k :: 0 <= j < k < |sent| ==> sent[j].to != sent[k].to
  }

  /** The sends one inbound message causes, visiting the clients in order. */
  function Broadcast(clients: seq<Client>, sender: ClientId, data: string): seq<Send> {
    if clients == [] then []
    else
      var last := clients[|clients| - 1];
      Broadcast(clients[..|clients| - 1], sender, data)
        + (if Receives(last, sender) then [Send(last.id, data)] else [])
  }

  /**
   * A send happens exactly when its target is an open client other than the
   * sender, and it carries the inbound string.
   */
  lemma {:induction false} BroadcastSends(clients: seq<Client>, sender: ClientId, data: string)
    ensures forall s :: s in Broadcast(clients, sender, data) <==>
              s.data == data && s.to != sender && Client(s.to, Open) in clients
  {
    if clients != [] {
      var init := clients[..|clients| - 1];
      assert clients == init + [clients[|clients| - 1]];
      BroadcastSends(init, sender, data);
    }
  }

  /** The sender's own socket is never sent its message, whatever its state. */
  lemma {:induction false} SenderReceivesNothing(clients: seq<Client>, sender: ClientId, data: string)
    ensures forall s :: s in Broadcast(clients, sender, data) ==> s.to != sender
  {
    BroadcastSends(clients, sender, data);
  }

  /** A client that is not open receives nothing. */
  lemma ClosedClientReceivesNothing(clients: seq<Client>, sender: ClientId, data: string, c: Client)
    requires DistinctIds(clients)
    requires c in clients && c.readyState != Open
    ensures forall s :: s in Broadcast(clients, sender, data) ==> s.to != c.id
  {
    BroadcastSends(clients, sender, data);
  }

  /** Every open client other than the sender is sent the message. */
  lemma {:induction false} OpenPeerReceives(clients: seq<Client>, sender: ClientId, data: string, c: Client)
    requires c in clients && Receives(c, sender)
    ensures Send(c.id, data) in Broadcast(clients, sender, data)
  {
    BroadcastSends(clients, sender, data);
  }

  /** Over a set of distinct sockets, each recipient is sent the message only once. */
  lemma {:induction false} BroadcastOnce(clients: seq<Client>, sender: ClientId, data: string)
    requires DistinctIds(clients)
    ensures DistinctTargets(Broadcast(clients, sender, data))
  {
    if clients != [] {
      var init := clients[..|clients| - 1];
      var last := clients[|clients| - 1];
      assert clients == init + [last];
      assert DistinctIds(init);
      BroadcastOnce(init, sender, data);
      BroadcastSends(init, sender, data);
      var before := Broadcast(init, sender, data);
      forall s | s in before ensures s.to != last.id {
        var k :| 0 <= k < |init| && init[k] == Client(s.to, Open);
        assert clients[k] == init[k];
      }
      var sent := Broadcast(clients, sender, data);
      assert sent == before + (if Receives(last, sender) then [Send(last.id, data)] else []);
      forall j, k | 0 <= j < k < |sent| ensures sent[j].to != sent[k].to {
        if k < |before| {
          assert sent[j] == before[j] && sent[k] == before[k];
        } else {
          assert sent[j] == before[j] && sent[j] in before;
          assert sent[k] == Send(last.id, data);
        }
      }
    }
  }

  /** The `message` handler: send the inbound string to every other open client. */
  method OnMessage(clients: seq<Client>, sender: ClientId, message: string) returns (sent: seq<Send>)
    ensures sent == Broadcast(clients, sender, message)
  {
    sent := [];
    for i := 0 to |clients|
      invariant sent == Broadcast(clients[..i], sender, message)
    {
      var client := clients[i];
      assert clients[..i + 1][..i] == clients[..i];
      if client.id != sender && client.readyState == Open {
        sent := sent + [Send(client.id, message)];
      }
    }
    assert clients[..|clients|] == clients;
  }

  /**
   * Dispatch one socket event: a new connection is greeted, a message is
   * broadcast, and close and error only log.
   */
  method OnEvent(clients: seq<Client>, e: Event) returns (sent: seq<Send>)
    ensures e.Connection? ==> sent == [Send(e.ws, Welcome)]
    ensures e.Message? ==> sent == Broadcast(clients, e.ws, e.data)
    ensures e.Close? || e.Error? ==> sent == []
  {
    match e
    case Connection(ws) =>
      sent := [Send(ws, Welcome)];
    case Message(ws, data) =>
      sent := OnMessage(clients, ws, data);
    case Close(_) =>
      sent := [];
    case Error(_, _) =>
      sent := [];
  }
}
