/**
 * The gateway-triggered form of the chat relay: three handlers (`$connect`,
 * `$disconnect`, `$default`) over one shared key-value table of connection IDs.
 *
 * The store and the delivery provider are injected: every store call takes a
 * boolean saying whether it fails, and every post to a connection takes its
 * outcome from a total function of the target ID. The fan-out is modelled as a
 * sequential loop over the scanned items; each step touches only its own target.
 */
module Handler {
  import opened Collections

  datatype Option<T> = None | Some(value: T)

  /** What a handler hands back to the gateway. */
  datatype Response = Response(statusCode: int, body: string)

  const Connected := Response(200, "Connected.")
  const FailedToConnect := Response(500, "Failed to connect.")
  const Disconnected := Response(200, "Disconnected.")
  const FailedToDisconnect := Response(500, "Failed to disconnect.")
  const NoMessageBody := Response(400, "No message body.")
  const FailedToRetrieve := Response(500, "Failed to retrieve connections.")
  const MessageSent := Response(200, "Message sent.")
  const FailedToSend := Response(500, "Failed to send messages.")

  /** The status code the delivery provider attaches to a "connection gone" error. */
  const GoneStatusCode := 410

  /**
   * Outcome of one post to a connection: success, or an error that may carry
   * an HTTP status code.
   */
  datatype PostOutcome = Posted | Failed(statusCode: Option<int>)

  /** A post failure that means the target connection no longer exists. */
  predicate IsGone(o: PostOutcome) {
    o.Failed? && o.statusCode == Some(GoneStatusCode)
  }

  /** One attempted delivery: the target connection and the data sent to it. */
  datatype Post = Post(connectionId: string, data: string)

  /** The body check at the start of `sendMessage`: absent and empty bodies are refused. */
  predicate HasBody(body: Option<string>) {
    body.Some? && body.value != ""
  }

  /** The targets of a broadcast: every scanned connection except the sender. */
  function Targets(snapshot: set<string>, sender: string): set<string> {
    snapshot - {sender}
  }

  /** The targets whose post reported Gone and whose eviction delete then succeeded. */
  ghost function Evicted(targets: set<string>, outcome: string -> PostOutcome,
                         deleteFails: string -> bool): set<string>
  {
    set t | t in targets && IsGone(outcome(t)) && !deleteFails(t)
  }

  /** Some target reported Gone and the delete that should evict it failed. */
  ghost predicate EvictionFails(targets: set<string>, outcome: string -> PostOutcome,
                                deleteFails: string -> bool)
  {
    exists t :: t in targets && IsGone(outcome(t)) && deleteFails(t)
  }

  /** The connections table: the set of connection IDs currently stored. */
  class ConnectionTable {
    var ids: set<string>

    constructor ()
      ensures ids == {}
    {
      ids := {};
    }

    /** Store one item keyed by `id`; putting an existing key leaves the set as it was. */
    method Put(id: string, fails: bool) returns (ok: bool)
      modifies this
      ensures ok == !fails
      ensures ids == if ok then old(ids) + {id} else old(ids)
    {
      ok := !fails;
      if ok {
        ids := ids + {id};
      }
    }

    /** Delete the item keyed by `id`; deleting an absent key is not an error. */
    method Delete(id: string, fails: bool) returns (ok: bool)
      modifies this
      ensures ok == !fails
      ensures ids == if ok then old(ids) - {id} else old(ids)
    {
      ok := !fails;
      if ok {
        ids := ids - {id};
      }
    }

    /**
     * Read every stored ID: each exactly once, in an order the store chooses.
     * Reads the table and changes nothing.
     */
    method Scan(fails: bool) returns (items: Option<seq<string>>)
      ensures items.None? <==> fails
      ensures items.Some? ==> Distinct(items.value) && Elements(items.value) == ids
    {
      if fails {
        return None;
      }
      var rest := ids;
      var found: seq<string> := [];
      while rest != {}
        invariant rest <= ids
        invariant Distinct(found)
        invariant Elements(found) == ids - rest
        decreases rest
      {
        var id :| id in rest;
        assert Elements(found + [id]) == Elements(found) + {id};
        found := found + [id];
        rest := rest - {id};
      }
      items := Some(found);
    }
  }

  /** `$connect`: store the new connection ID. */
  method Connect(table: ConnectionTable, connectionId: string, putFails: bool) returns (r: Response)
    modifies table
    ensures !putFails ==> r == Connected && table.ids == old(table.ids) + {connectionId}
    ensures putFails ==> r == FailedToConnect && table.ids == old(table.ids)
  {
    var ok := table.Put(connectionId, putFails);
    if ok {
      r := Connected;
    } else {
      r := FailedToConnect;
    }
  }

  /** `$disconnect`: delete the connection ID, whether or not it is stored. */
  method Disconnect(table: ConnectionTable, connectionId: string, deleteFails: bool) returns (r: Response)
    modifies table
    ensures !deleteFails ==> r == Disconnected && table.ids == old(table.ids) - {connectionId}
    ensures deleteFails ==> r == FailedToDisconnect && table.ids == old(table.ids)
  {
    var ok := table.Delete(connectionId, deleteFails);
    if ok {
      r := Disconnected;
    } else {
      r := FailedToDisconnect;
    }
  }

  /**
   * The registry's lifecycle over one ID: after a successful `$connect` a scan
   * lists it; two successful `$disconnect`s in a row both succeed, and the
   * second changes nothing, so a scan then omits it.
   */
  method ConnectThenDisconnectTwice(table: ConnectionTable, id: string)
    returns (afterConnect: Option<seq<string>>, first: Response, second: Response,
             afterDisconnect: Option<seq<string>>)
    modifies table
    ensures afterConnect.Some? && id in afterConnect.value
    ensures first == Disconnected && second == Disconnected
    ensures afterDisconnect.Some? && id !in afterDisconnect.value
    ensures table.ids == old(table.ids) - {id}
  {
    var r := Connect(table, id, false);
    afterConnect := table.Scan(false);
    first := Disconnect(table, id, false);
    ghost var once := table.ids;
    second := Disconnect(table, id, false);
    assert table.ids == once;
    afterDisconnect := table.Scan(false);
  }

  /**
   * `$default`: relay `body` from `sender` to every other stored connection.
   * `posts` lists the deliveries attempted, in order. `outcome(t)` is what the
   * provider answers to the post to `t`; `deleteFails(t)` says whether the
   * eviction delete for `t` fails.
   */
  method SendMessage(table: ConnectionTable, sender: string, body: Option<string>, scanFails: bool,
                     outcome: string -> PostOutcome, deleteFails: string -> bool)
    returns (r: Response, posts: seq<Post>)
    modifies table
    // a missing or empty body is refused before the table is read
    ensures !HasBody(body) ==> r == NoMessageBody && posts == [] && table.ids == old(table.ids)
    // a failed scan attempts nothing
    ensures HasBody(body) && scanFails ==>
              r == FailedToRetrieve && posts == [] && table.ids == old(table.ids)
    // otherwise: one post per target, each with the unmodified body
    ensures HasBody(body) && !scanFails ==>
              (forall p :: p in posts <==> p.connectionId in Targets(old(table.ids), sender) && p.data == body.value)
    ensures HasBody(body) && !scanFails ==>
              (forall j, k :: 0 <= j < k < |posts| ==> posts[j].connectionId != posts[k].connectionId)
    ensures HasBody(body) && !scanFails ==> |posts| == |Targets(old(table.ids), sender)|
    // exactly the Gone targets whose delete succeeded leave the table
    ensures HasBody(body) && !scanFails ==>
              table.ids == old(table.ids) - Evicted(Targets(old(table.ids), sender), outcome, deleteFails)
    // the broadcast fails only when an eviction delete fails
    ensures HasBody(body) && !scanFails ==>
              r == if EvictionFails(Targets(old(table.ids), sender), outcome, deleteFails)
                   then FailedToSend else MessageSent
    // consequences: nothing is ever added, the sender and every target whose
    // post did not report Gone stay, and an empty broadcast succeeds
    ensures table.ids <= old(table.ids)
    ensures sender in old(table.ids) ==> sender in table.ids
    ensures forall t :: t in old(table.ids) && !IsGone(outcome(t)) ==> t in table.ids
    ensures HasBody(body) && !scanFails && old(table.ids) <= {sender} ==> r == MessageSent && posts == []
  {
    if !HasBody(body) {
      return NoMessageBody, [];
    }
    var message := body.value;
    var scanned := table.Scan(scanFails);
    if scanned.None? {
      return FailedToRetrieve, [];
    }
    var items := scanned.value;
    ghost var before := table.ids;
    var rejected := false;
    posts := [];
    for i := 0 to |items|
      invariant table.ids == before - Evicted(Targets(Elements(items[..i]), sender), outcome, deleteFails)
      invariant forall p :: p in posts <==> p.connectionId in Targets(Elements(items[..i]), sender) && p.data == message
      invariant forall j, k :: 0 <= j < k < |posts| ==> posts[j].connectionId != posts[k].connectionId
      invariant rejected == EvictionFails(Targets(Elements(items[..i]), sender), outcome, deleteFails)
    {
      var id := items[i];
      assert items[..i + 1] == items[..i] + [id];
      assert Elements(items[..i + 1]) == Elements(items[..i]) + {id};
      if id != sender {
        assert id !in Elements(items[..i]);
        posts := posts + [Post(id, message)];
        var result := outcome(id);
        if IsGone(result) {
          var ok := table.Delete(id, deleteFails(id));
          if !ok {
            rejected := true;
          }
        }
      }
    }
    assert items[..|items|] == items;
    forall t | t in Targets(before, sender) ensures exists p :: p in posts && p.connectionId == t {
      assert Post(t, message) in posts;
    }
    PostCount(posts, Targets(before, sender));
    if rejected {
      r := FailedToSend;
    } else {
      r := MessageSent;
    }
  }

  /** A duplicate-free list of posts has one entry per target it covers. */
  lemma PostCount(posts: seq<Post>, targets: set<string>)
    requires forall p :: p in posts ==> p.connectionId in targets
    requires forall t :: t in targets ==> exists p :: p in posts && p.connectionId == t
    requires forall j, k :: 0 <= j < k < |posts| ==> posts[j].connectionId != posts[k].connectionId
    ensures |posts| == |targets|
  {
    var ids := seq(|posts|, k requires 0 <= k < |posts| => posts[k].connectionId);
    assert Distinct(ids);
    assert Elements(ids) == targets by {
      forall t | t in targets ensures t in Elements(ids) {
        var p :| p in posts && p.connectionId == t;
        var k :| 0 <= k < |posts| && posts[k] == p;
        assert ids[k] == t;
      }
    }
    DistinctCardinality(ids);
  }

  /** The provider's answers in the scenario below: C is gone, every other post succeeds. */
  function ScenarioOutcome(t: string): PostOutcome {
    if t == "C" then Failed(Some(GoneStatusCode)) else Posted
  }

  /** A store whose deletes never fail. */
  function NeverFails(t: string): bool {
    false
  }

  /** In the scenario below, exactly C is evicted and no eviction delete fails. */
  lemma ScenarioEvictsOnlyC()
    ensures Targets({"A", "B", "C"}, "A") == {"B", "C"}
    ensures Evicted({"B", "C"}, ScenarioOutcome, NeverFails) == {"C"}
    ensures !EvictionFails({"B", "C"}, ScenarioOutcome, NeverFails)
    ensures {"A", "B", "C"} - {"C"} == {"A", "B"}
  {
  }

  /**
   * A table {A, B, C} where A sends "hi", the post to B succeeds and C is gone:
   * afterwards the table is {A, B} and the broadcast reports success. A later
   * `$disconnect` of C, already evicted, still succeeds and changes nothing.
   */
  method StaleConnectionScenario() {
    var table := new ConnectionTable();
    var r := Connect(table, "A", false);
    r := Connect(table, "B", false);
    r := Connect(table, "C", false);
    assert table.ids == {"A", "B", "C"};
    ScenarioEvictsOnlyC();
    var posts;
    r, posts := SendMessage(table, "A", Some("hi"), false, ScenarioOutcome, NeverFails);
    assert table.ids == {"A", "B"};
    assert r == MessageSent;
    assert Post("B", "hi") in posts && Post("C", "hi") in posts;
    r := Disconnect(table, "C", false);
    assert r == Disconnected && table.ids == {"A", "B"};
  }
}
