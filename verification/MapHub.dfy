/** The live map's subscription index and broadcasts (internal/ws/map_hub.go, internal/ws/map_client.go). */
module MapHub {
  import opened Wrappers
  import opened ChunkIds

  const MAILBOX: nat := 256

  type Message = string

  /** A connected browser: its send channel, as the queued messages and whether it is still open. */
  class MapClient {
    var queue: seq<Message>
    var isOpen: bool

    constructor ()
      ensures queue == [] && isOpen
    {
      queue, isOpen := [], true;
    }

    /** A send that gives up when the channel is full. */
    method TrySend(m: Message) returns (sent: bool)
      requires isOpen
      modifies this`queue
      ensures sent <==> |old(queue)| < MAILBOX
      ensures queue == if sent then old(queue) + [m] else old(queue)
    {
      sent := |queue| < MAILBOX;
      if sent {
        queue := queue + [m];
      }
    }

    method CloseSend()
      modifies this`isOpen
      ensures !isOpen
    {
      isOpen := false;
    }
  }

  /** What a broadcast did to one subscriber, whose queue was `was`: delivered, or closed when there was no room. */
  ghost predicate Served(c: MapClient, was: seq<Message>, message: Message)
    reads c
  {
    if |was| < MAILBOX then c.queue == was + [message] && c.isOpen else c.queue == was && !c.isOpen
  }

  function Subscribers(chunks: map<string, set<MapClient>>, key: string): set<MapClient> {
    if key in chunks then chunks[key] else {}
  }

  function Subscriptions(clients: map<MapClient, set<string>>, c: MapClient): set<string> {
    if c in clients then clients[c] else {}
  }

  /** The two maps are inverse relations, and no chunk is kept without a subscriber. */
  ghost predicate Inverse(chunks: map<string, set<MapClient>>, clients: map<MapClient, set<string>>) {
    && (forall key :: key in chunks ==> forall c :: c in chunks[key] ==> key in Subscriptions(clients, c))
    && (forall c :: c in clients ==> forall key :: key in clients[c] ==> c in Subscribers(chunks, key))
    && NoneEmpty(chunks)
  }

  predicate NoneEmpty(chunks: map<string, set<MapClient>>) { forall key :: key in chunks ==> chunks[key] != {} }

  /** Everybody in `gone` is out of every chunk; all other subscriptions are as they were. */
  ghost predicate Gone(before: map<string, set<MapClient>>, after: map<string, set<MapClient>>, gone: set<MapClient>) {
    forall key :: Subscribers(after, key) == Subscribers(before, key) - gone
  }

  lemma GoneKeepsInverse(chunks: map<string, set<MapClient>>, clients: map<MapClient, set<string>>,
                         chunks': map<string, set<MapClient>>, gone: set<MapClient>)
    requires Inverse(chunks, clients) && Gone(chunks, chunks', gone) && NoneEmpty(chunks')
    ensures Inverse(chunks', clients - gone)
  {
    forall key | key in chunks' ensures forall c :: c in chunks'[key] ==> key in Subscriptions(clients - gone, c) {
      assert Subscribers(chunks', key) == Subscribers(chunks, key) - gone;
    }
    forall c, key | c in (clients - gone) && key in clients[c] ensures c in Subscribers(chunks', key) {
      assert c in Subscribers(chunks, key);
    }
  }

  lemma GoneTwice(a: map<string, set<MapClient>>, b: map<string, set<MapClient>>, c: map<string, set<MapClient>>,
                  first: set<MapClient>, second: set<MapClient>)
    requires Gone(a, b, first) && Gone(b, c, second)
    ensures Gone(a, c, first + second)
  {
    forall key ensures Subscribers(c, key) == Subscribers(a, key) - (first + second) {
      assert Subscribers(b, key) == Subscribers(a, key) - first;
    }
  }

  /** A chunk without one subscriber; a chunk that loses its last one goes. */
  function Dropped(chunks: map<string, set<MapClient>>, key: string, c: MapClient): map<string, set<MapClient>> {
    if key !in chunks then chunks
    else
      var left := chunks[key] - {c};
      if |left| == 0 then chunks - {key} else chunks[key := left]
  }

  lemma DroppedAt(chunks: map<string, set<MapClient>>, key: string, c: MapClient)
    requires NoneEmpty(chunks)
    ensures NoneEmpty(Dropped(chunks, key, c))
    ensures forall k :: Subscribers(Dropped(chunks, key, c), k) == Subscribers(chunks, k) - if k == key then {c} else {}
  {
  }

  function Added(chunks: map<string, set<MapClient>>, key: string, c: MapClient): map<string, set<MapClient>> {
    chunks[key := Subscribers(chunks, key) + {c}]
  }

  lemma AddedAt(chunks: map<string, set<MapClient>>, key: string, c: MapClient)
    requires NoneEmpty(chunks)
    ensures NoneEmpty(Added(chunks, key, c))
    ensures forall k :: Subscribers(Added(chunks, key, c), k) == Subscribers(chunks, k) + if k == key then {c} else {}
  {
  }

  lemma ReplacedInverse(chunks: map<string, set<MapClient>>, clients: map<MapClient, set<string>>,
                        chunks': map<string, set<MapClient>>, c: MapClient, next: set<string>)
    requires Inverse(chunks, clients) && NoneEmpty(chunks')
    requires forall key :: Subscribers(chunks', key) == Subscribers(chunks, key) - {c} + if key in next then {c} else {}
    ensures Inverse(chunks', clients[c := next])
  {
    var clients' := clients[c := next];
    forall key | key in chunks' ensures forall d :: d in chunks'[key] ==> key in Subscriptions(clients', d) {
      assert chunks'[key] == Subscribers(chunks, key) - {c} + if key in next then {c} else {};
    }
    forall d, key | d in clients' && key in clients'[d] ensures d in Subscribers(chunks', key) {
      assert d != c ==> d in Subscribers(chunks, key);
    }
  }

  lemma NotSubscribed(chunks: map<string, set<MapClient>>, clients: map<MapClient, set<string>>, c: MapClient)
    requires Inverse(chunks, clients)
    ensures forall key :: key !in Subscriptions(clients, c) ==>
              Subscribers(chunks, key) == Subscribers(chunks, key) - {c}
  {
  }

  lemma NobodyGone(chunks: map<string, set<MapClient>>)
    ensures Gone(chunks, chunks, {})
  {
  }

  lemma SubscribersWithin(chunks: map<string, set<MapClient>>, chunks': map<string, set<MapClient>>,
                          clients: map<MapClient, set<string>>, key: string)
    requires Inverse(chunks, clients) && Inverse(chunks', clients)
    ensures Subscribers(chunks, key) <= Subscribers(chunks', key)
  {
  }

  /** The map of clients determines the map of chunks. */
  lemma InverseIsUnique(chunks: map<string, set<MapClient>>, chunks': map<string, set<MapClient>>,
      clients: map<MapClient, set<string>>)
    requires Inverse(chunks, clients) && Inverse(chunks', clients)
    ensures chunks == chunks'
  {
    forall key ensures Subscribers(chunks, key) == Subscribers(chunks', key) {
      SubscribersWithin(chunks, chunks', clients, key);
      SubscribersWithin(chunks', chunks, clients, key);
    }
    hide Inverse;
    assert NoneEmpty(chunks) && NoneEmpty(chunks');
    forall key ensures key in chunks <==> key in chunks' {
      assert Subscribers(chunks, key) == Subscribers(chunks', key);
    }
    forall key | key in chunks ensures chunks[key] == chunks'[key] {
      assert Subscribers(chunks, key) == Subscribers(chunks', key);
    }
  }

  /** The map of chunks determines what each client is subscribed to; it does not tell a client without subscriptions
      from a stranger. */
  lemma SubscriptionsAreUnique(chunks: map<string, set<MapClient>>, clients: map<MapClient, set<string>>,
      clients': map<MapClient, set<string>>, c: MapClient)
    requires Inverse(chunks, clients) && Inverse(chunks, clients')
    ensures Subscriptions(clients, c) == Subscriptions(clients', c)
  {
    forall key ensures key in Subscriptions(clients, c) <==> key in Subscriptions(clients', c) {
      assert key in Subscriptions(clients, c) <==> c in Subscribers(chunks, key);
    }
  }

  class MapHub {
    var chunks: map<string, set<MapClient>>
    var clients: map<MapClient, set<string>>

    ghost predicate Valid()
      reads this
    {
      Inverse(chunks, clients)
    }

    /** No client of the hub has been closed. Only a closed client that joins or subscribes again ends this. */
    ghost predicate AllOpen()
      reads this, clients.Keys
    {
      forall c :: c in clients ==> c.isOpen
    }

    constructor ()
      ensures Valid() && chunks == map[] && clients == map[]
    {
      chunks, clients := map[], map[];
    }

    method Join(client: MapClient)
      requires Valid()
      modifies this
      ensures Valid() && chunks == old(chunks)
      ensures clients == if client in old(clients) then old(clients) else old(clients)[client := {}]
      ensures old(AllOpen()) && client.isOpen ==> AllOpen()
    {
      if client !in clients {
        clients := clients[client := {}];
      }
    }

    method Leave(client: MapClient)
      requires Valid()
      modifies this, client`isOpen
      ensures Valid() && clients == old(clients) - {client} && Gone(old(chunks), chunks, {client})
      ensures !client.isOpen && (old(AllOpen()) ==> AllOpen())
    {
      RemoveClient(client);
      client.CloseSend();
    }

    /** Whatever the client had subscribed before, now it has exactly the chunks of the list. */
    method ReplaceSubscriptions(client: MapClient, chunkIds: seq<string>)
      requires Valid()
      modifies this
      ensures Valid() && clients == old(clients)[client := set id | id in chunkIds]
      ensures forall key :: Subscribers(chunks, key) ==
                Subscribers(old(chunks), key) - {client} + if key in chunkIds then {client} else {}
      ensures old(AllOpen()) && client.isOpen ==> AllOpen()
    {
      hide Subscribers, Added, Inverse;
      RemoveClientSubscriptions(client);
      ghost var cleared := chunks;
      var next: set<string> := {};
      for i := 0 to |chunkIds|
        invariant next == (set id | id in chunkIds[..i]) && clients == old(clients) && NoneEmpty(chunks)
        invariant forall key ::
                    Subscribers(chunks, key) == Subscribers(cleared, key) + if key in next then {client} else {}
      {
        assert chunkIds[..i + 1] == chunkIds[..i] + [chunkIds[i]];
        if chunkIds[i] in next {
          continue;
        }
        next := next + {chunkIds[i]};
        AddedAt(chunks, chunkIds[i], client);
        chunks := Added(chunks, chunkIds[i], client);
      }
      assert chunkIds[..|chunkIds|] == chunkIds;
      ReplacedInverse(old(chunks), clients, chunks, client, next);
      clients := clients[client := next];
    }

    /** Every subscriber with room gets the message; every full one is dropped from all its chunks and closed. The
        send to a subscriber that was closed before panics, after any `served` ones have been dealt with. */
    method BroadcastToChunk(key: string, message: Message) returns (panicked: bool, ghost served: set<MapClient>)
      requires Valid()
      modifies this, Subscribers(chunks, key)
      ensures Valid() && served <= old(Subscribers(chunks, key))
      ensures panicked <==> exists c: MapClient :: c in old(Subscribers(chunks, key)) && !old(c.isOpen)
      ensures !panicked ==> served == old(Subscribers(chunks, key))
      ensures var full := set c: MapClient | c in served && |old(c.queue)| >= MAILBOX;
              clients == old(clients) - full && Gone(old(chunks), chunks, full)
      ensures forall c :: c in served ==> old(c.isOpen) && Served(c, old(c.queue), message)
      ensures forall c :: c in old(Subscribers(chunks, key)) - served ==>
                c.queue == old(c.queue) && c.isOpen == old(c.isOpen)
    {
      NobodyGone(chunks);
      hide Inverse, Gone, Served;
      var all: set<MapClient> := if key in chunks then chunks[key] else {};
      ghost var full: set<MapClient> := set c | c in all && |c.queue| >= MAILBOX;
      var rest := all;
      assert full - rest == {};
      while rest != {}
        invariant rest <= all && Valid()
        invariant clients == old(clients) - (full - rest) && Gone(old(chunks), chunks, full - rest)
        invariant forall c :: c in rest ==> c.isOpen == old(c.isOpen) && c.queue == old(c.queue)
        invariant forall c :: c in all - rest ==> old(c.isOpen) && Served(c, old(c.queue), message)
      {
        var client := AnyOf(rest);
        if !client.isOpen {
          ghost var done: set<MapClient> := all - rest;
          assert full - rest == set c: MapClient | c in done && |old(c.queue)| >= MAILBOX;
          return true, done;
        }
        ghost var before, evicted := chunks, full - rest;
        rest := rest - {client};
        Deliver(client, message);
        if client in full {
          GoneTwice(old(chunks), before, chunks, evicted, {client});
          assert full - rest == evicted + {client};
        } else {
          assert full - rest == evicted;
        }
      }
      assert all - rest == all && full - rest == full == set c: MapClient | c in all && |old(c.queue)| >= MAILBOX;
      return false, all;
    }

    /** While no client of the hub has been closed, no broadcast panics, every subscriber with room has the message, the
        full ones are gone and closed, and it stays so. */
    method BroadcastChunkEvent(key: string, message: Message) returns (panicked: bool)
      requires Valid()
      modifies this, Subscribers(chunks, key)
      ensures Valid() && (old(AllOpen()) ==> !panicked && AllOpen())
      ensures old(AllOpen()) ==> forall c :: c in old(Subscribers(chunks, key)) ==> Served(c, old(c.queue), message)
      ensures old(AllOpen()) ==>
                var full := set c: MapClient | c in old(Subscribers(chunks, key)) && |old(c.queue)| >= MAILBOX;
                clients == old(clients) - full && Gone(old(chunks), chunks, full)
    {
      ghost var served;
      ghost var subscribers := Subscribers(chunks, key);
      assert forall c :: c in subscribers ==> c in clients;
      hide Inverse, Gone, Subscribers;
      panicked, served := BroadcastToChunk(key, message);
    }

    /** One subscriber's share of a broadcast. */
    method Deliver(client: MapClient, message: Message)
      requires Valid() && client.isOpen
      modifies this, client
      ensures Valid()
      ensures Served(client, old(client.queue), message)
      ensures if |old(client.queue)| < MAILBOX then chunks == old(chunks) && clients == old(clients)
              else clients == old(clients) - {client} && Gone(old(chunks), chunks, {client})
    {
      var sent := client.TrySend(message);
      if !sent {
        RemoveClient(client);
        client.CloseSend();
      }
    }

    method ClientSubscriptions(client: MapClient) returns (ids: set<string>)
      ensures ids == Subscriptions(clients, client)
    {
      ids := if client in clients then clients[client] else {};
    }

    method RemoveClient(client: MapClient)
      requires Valid()
      modifies this
      ensures Valid() && clients == old(clients) - {client} && Gone(old(chunks), chunks, {client})
    {
      RemoveClientSubscriptions(client);
      GoneKeepsInverse(old(chunks), clients, chunks, {client});
      clients := clients - {client};
    }

    /** Takes the client out of the chunks; its own entry is left to the caller. */
    method RemoveClientSubscriptions(client: MapClient)
      requires Valid()
      modifies this`chunks
      ensures Gone(old(chunks), chunks, {client}) && NoneEmpty(chunks)
    {
      hide Subscribers, Dropped;
      var mine := if client in clients then clients[client] else {};
      var rest := mine;
      while rest != {}
        invariant rest <= mine && NoneEmpty(chunks)
        invariant forall key ::
                    Subscribers(chunks, key) == Subscribers(old(chunks), key) - if key in mine - rest then {client}
                    else {}
      {
        var key := AnyOf(rest);
        rest := rest - {key};
        DroppedAt(chunks, key, client);
        chunks := Dropped(chunks, key, client);
      }
      NotSubscribed(old(chunks), clients, client);
    }
  }

  // ---------------------------------------------------------------- which names hear which events

  /** The check on one name of a subscription request. */
  predicate Subscribable(raw: string) { ParseChunkID(raw).Ok? && Playable(ParseChunkID(raw).value) }

  /** A subscription request: refused as a whole when one name is wrong, otherwise the names as they were written. */
  method HandleSubscribeChunks(hub: MapHub, client: MapClient, raws: seq<string>) returns (accepted: bool)
    requires hub.Valid()
    modifies hub
    ensures hub.Valid() && (accepted <==> forall raw :: raw in raws ==> Subscribable(raw))
    ensures !accepted ==> hub.clients == old(hub.clients) && hub.chunks == old(hub.chunks)
    ensures accepted ==> hub.clients == old(hub.clients)[client := set raw | raw in raws]
    ensures accepted ==> forall key ::
              Subscribers(hub.chunks, key) == Subscribers(old(hub.chunks), key) - {client} + if key in raws
                  then {client} else {}
  {
    var chunkIds: seq<string>, seen: set<string> := [], {};
    for i := 0 to |raws|
      invariant seen == (set raw | raw in raws[..i]) == set id | id in chunkIds
      invariant forall raw :: raw in seen ==> Subscribable(raw)
    {
      assert raws[..i + 1] == raws[..i] + [raws[i]];
      if !Subscribable(raws[i]) {
        assert raws[i] in raws;
        return false;
      }
      if raws[i] in seen {
        continue;
      }
      seen := seen + {raws[i]};
      chunkIds := chunkIds + [raws[i]];
    }
    assert raws[..|raws|] == raws;
    assert forall raw :: raw in raws <==> raw in seen;
    assert forall raw :: raw in chunkIds <==> raw in seen;
    assert (set id | id in chunkIds) == set raw | raw in raws;
    hub.ReplaceSubscriptions(client, chunkIds);
    return true;
  }

  /** The events of a chunk are sent under its printed name; so a client hears them exactly when one of its
      subscriptions names that chunk with plain coordinates, whatever else it has subscribed. */
  lemma OnlyPlainNamesHear(chunks: map<string, set<MapClient>>, clients: map<MapClient, set<string>>,
      client: MapClient, id: ChunkID)
    requires Inverse(chunks, clients) && Playable(id)
    ensures client in Subscribers(chunks, Print(id)) <==>
              exists raw :: raw in Subscriptions(clients, client) && ParseChunkID(raw) == Ok(id)
                  && PlainCoordinates(raw)
  {
    hide ParseChunkID, PlainCoordinates, Print;
    PlayablePrintable(id);
    ParsePrintRoundTrip(id);
    PrintsBack(Print(id));
    forall raw | raw in Subscriptions(clients, client) && ParseChunkID(raw) == Ok(id) && PlainCoordinates(raw)
      ensures raw == Print(id)
    {
      PrintsBack(raw);
    }
  }

  /** So a chunk can be named in a way that is accepted but never hears anything. */
  lemma DeafNameExists(id: ChunkID)
    requires Playable(id)
    ensures Subscribable(Print(id)) && Subscribable(Alias(id)) && ParseChunkID(Alias(id)) == Ok(id)
              && Alias(id) != Print(id)
  {
    PlayablePrintable(id);
    ParsePrintRoundTrip(id);
    ParseAcceptsAlias(id);
  }
}
