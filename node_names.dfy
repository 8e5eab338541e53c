/**
 * The two-tier peer-name resolver: a short channel id becomes the public key
 * of the peer at the other end of the channel, and that key becomes the
 * peer's display name.  Each tier is a cache in front of one query to the
 * node's control interface (the gateway).
 *
 * The pure functions ChannelPeer, NodeAlias and ChannelPeerAlias say what one
 * resolution does to a snapshot of both caches; the class NodeNames holds the
 * caches as fields and its methods are proved to do exactly that.
 */
module NodeNameCache {
  import opened Wrappers
  import opened Primitives

  /** Capacity of each cache, in entries. */
  const CACHE_SIZE: nat := 10_000

  /** Time to live of an alias entry, in seconds. */
  const CACHE_EXPIRY: nat := 60 * 60

  /** One direction of a channel as `listchannels` reports it. */
  datatype ChannelRecord = ChannelRecord(source: PublicKey, destination: PublicKey)

  /** A node as `listnodes` reports it; the alias is optional. */
  datatype NodeRecord = NodeRecord(alias: Option<string>)

  /**
   * What the node's control interface answers at the time of a call: the
   * records it lists, or the message of a failed round trip.
   */
  datatype Gateway = Gateway(
    listChannels: ShortChannelId -> Result<seq<ChannelRecord>, string>,
    listNodes: PublicKey -> Result<seq<NodeRecord>, string>)

  /** An alias together with the time (in seconds) it entered the cache. */
  datatype AliasEntry = AliasEntry(alias: string, insertedAt: nat)

  /** An alias entry is served only before its time to live has elapsed. */
  predicate Live(e: AliasEntry, now: nat) {
    now < e.insertedAt + CACHE_EXPIRY
  }

  /** A snapshot of both caches. */
  datatype CacheState = CacheState(
    channelPeers: map<ShortChannelId, PublicKey>,
    names: map<PublicKey, AliasEntry>)

  predicate HasLiveName(c: CacheState, pk: PublicKey, now: nat) {
    pk in c.names && Live(c.names[pk], now)
  }

  /** The outcome of one resolution: its result, the RPC calls it issued, and the caches after it. */
  datatype Step<R> = Step(result: Result<R, Error>, calls: nat, caches: CacheState)

  /**
   * The counterparty of a channel record: the destination when the source is
   * the local node, the source otherwise.
   */
  function SelectPeer(own: PublicKey, ch: ChannelRecord): (peer: PublicKey)
    ensures ch.source == own ==> peer == ch.destination
    ensures ch.source != own ==> peer == ch.source
    ensures ch.destination == own && ch.source != own ==> peer == ch.source
    ensures own in {ch.source, ch.destination} && ch.source != ch.destination ==>
              peer != own && {own, peer} == {ch.source, ch.destination}
  {
    if ch.source == own then ch.destination else ch.source
  }

  /** The display name of a node: its advertised alias, or else its public key as a string. */
  function AliasOrPubkey(node: NodeRecord, pk: PublicKey): (name: string)
    ensures node.alias.Some? ==> name == node.alias.value
    ensures node.alias.None? ==> name == PubkeyString(pk)
  {
    match node.alias
    case Some(a) => a
    case None => PubkeyString(pk)
  }

  /** Two nodes without an alias never get the same display name. */
  lemma FallbackNamesDistinct(n: NodeRecord, pk: PublicKey, m: NodeRecord, qk: PublicKey)
    requires n.alias.None? && m.alias.None? && pk != qk
    ensures AliasOrPubkey(n, pk) != AliasOrPubkey(m, qk)
  {
    PubkeyStringInjective(pk, qk);
  }

  /** Resolving a short channel id to the peer's public key, through the channel-peer cache. */
  function ChannelPeer(own: PublicKey, parse: Parser, gw: Gateway, c: CacheState, channelId: string)
    : (s: Step<PublicKey>)
    // the id is parsed before anything else happens
    ensures parse(channelId).Err? ==> s == Step(Err(ParseFailure(parse(channelId).error)), 0, c)
    // a cache hit is answered without a call
    ensures parse(channelId).Ok? && parse(channelId).value in c.channelPeers ==>
              s == Step(Ok(c.channelPeers[parse(channelId).value]), 0, c)
    // a miss issues exactly one `listchannels` call
    ensures parse(channelId).Ok? && parse(channelId).value !in c.channelPeers ==> s.calls == 1
    ensures parse(channelId).Ok? && parse(channelId).value !in c.channelPeers ==>
              match gw.listChannels(parse(channelId).value)
              case Err(msg) => s.result == Err(GatewayFailure(msg))
              case Ok(channels) =>
                if channels == [] then s.result == Err(ChannelNotFound(channelId))
                else s.result == Ok(SelectPeer(own, channels[0]))
    // the alias cache is never touched, and a failure is never cached
    ensures s.caches.names == c.names
    ensures s.result.Err? ==> s.caches == c
    // what is returned is what was inserted, under the parsed id, and nothing else changed
    ensures s.result.Ok? ==>
              parse(channelId).Ok? &&
              s.caches.channelPeers == c.channelPeers[parse(channelId).value := s.result.value]
  {
    match parse(channelId)
    case Err(msg) => Step(Err(ParseFailure(msg)), 0, c)
    case Ok(id) =>
      if id in c.channelPeers then Step(Ok(c.channelPeers[id]), 0, c)
      else
        match gw.listChannels(id)
        case Err(msg) => Step(Err(GatewayFailure(msg)), 1, c)
        case Ok(channels) =>
          if channels == [] then Step(Err(ChannelNotFound(channelId)), 1, c)
          else
            var peer := SelectPeer(own, channels[0]);
            Step(Ok(peer), 1, c.(channelPeers := c.channelPeers[id := peer]))
  }

  /** Resolving a public key to a display name, through the alias cache with its time to live. */
  function NodeAlias(gw: Gateway, c: CacheState, pk: PublicKey, now: nat): (s: Step<string>)
    // a live entry is answered without a call; anything else issues exactly one `listnodes` call
    ensures HasLiveName(c, pk, now) ==> s == Step(Ok(c.names[pk].alias), 0, c)
    ensures s.calls == 0 <==> HasLiveName(c, pk, now)
    ensures !HasLiveName(c, pk, now) ==> s.calls == 1
    ensures !HasLiveName(c, pk, now) ==>
              match gw.listNodes(pk)
              case Err(msg) => s.result == Err(GatewayFailure(msg))
              case Ok(nodes) =>
                if nodes == [] then s.result == Err(NodeNotFound(pk))
                else s.result == Ok(AliasOrPubkey(nodes[0], pk))
    // the channel-peer cache is never touched, and a failure is never cached
    ensures s.caches.channelPeers == c.channelPeers
    ensures s.result.Err? ==> s.caches == c
    // a fetched name is inserted, stamped with the current time, and nothing else changed
    ensures s.result.Ok? && s.calls == 1 ==> s.caches.names == c.names[pk := AliasEntry(s.result.value, now)]
    ensures s.result.Ok? ==> HasLiveName(s.caches, pk, now) && s.caches.names[pk].alias == s.result.value
  {
    if HasLiveName(c, pk, now) then Step(Ok(c.names[pk].alias), 0, c)
    else
      match gw.listNodes(pk)
      case Err(msg) => Step(Err(GatewayFailure(msg)), 1, c)
      case Ok(nodes) =>
        if nodes == [] then Step(Err(NodeNotFound(pk)), 1, c)
        else
          var alias := AliasOrPubkey(nodes[0], pk);
          Step(Ok(alias), 1, c.(names := c.names[pk := AliasEntry(alias, now)]))
  }

  /** Resolving a short channel id to the peer's display name: the peer first, then its name. */
  function ChannelPeerAlias(own: PublicKey, parse: Parser, gw: Gateway, c: CacheState, channelId: string, now: nat)
    : (s: Step<string>)
    ensures s.calls <= 2
    // a failed peer resolution is returned as it is, with no node lookup
    ensures ChannelPeer(own, parse, gw, c, channelId).result.Err? ==>
              s.result == Err(ChannelPeer(own, parse, gw, c, channelId).result.error) &&
              s.calls == ChannelPeer(own, parse, gw, c, channelId).calls && s.caches == c
    // a successful peer resolution is followed by a name resolution for that peer
    ensures ChannelPeer(own, parse, gw, c, channelId).result.Ok? ==>
              var p := ChannelPeer(own, parse, gw, c, channelId);
              var a := NodeAlias(gw, p.caches, p.result.value, now);
              s.result == a.result && s.calls == p.calls + a.calls && s.caches == a.caches
    // a failed name lookup keeps the channel entry the peer lookup stored
    ensures ChannelPeer(own, parse, gw, c, channelId).result.Ok? && s.result.Err? ==>
              s.caches == ChannelPeer(own, parse, gw, c, channelId).caches
    ensures s.result.Err? ==> s.caches.names == c.names
    // on success both tiers hold the entries that produce the returned name
    ensures s.result.Ok? ==>
              parse(channelId).Ok? && parse(channelId).value in s.caches.channelPeers &&
              HasLiveName(s.caches, s.caches.channelPeers[parse(channelId).value], now) &&
              s.caches.names[s.caches.channelPeers[parse(channelId).value]].alias == s.result.value
  {
    var p := ChannelPeer(own, parse, gw, c, channelId);
    match p.result
    case Err(e) => Step(Err(e), p.calls, p.caches)
    case Ok(peer) =>
      var a := NodeAlias(gw, p.caches, peer, now);
      Step(a.result, p.calls + a.calls, a.caches)
  }

  /** Cache-hit property: when both tiers already hold live entries, resolution is free and changes nothing. */
  lemma CachedResolutionIsFree(own: PublicKey, parse: Parser, gw: Gateway, c: CacheState, channelId: string, now: nat)
    requires parse(channelId).Ok? && parse(channelId).value in c.channelPeers
    requires HasLiveName(c, c.channelPeers[parse(channelId).value], now)
    ensures ChannelPeerAlias(own, parse, gw, c, channelId, now)
            == Step(Ok(c.names[c.channelPeers[parse(channelId).value]].alias), 0, c)
  {
  }

  /** A repeat of a successful resolution, at the same time and whatever the gateway now says, is free. */
  lemma RepeatResolutionIsFree(own: PublicKey, parse: Parser, gw: Gateway, gw': Gateway,
                               c: CacheState, channelId: string, now: nat)
    requires ChannelPeerAlias(own, parse, gw, c, channelId, now).result.Ok?
    ensures var s := ChannelPeerAlias(own, parse, gw, c, channelId, now);
            ChannelPeerAlias(own, parse, gw', s.caches, channelId, now) == Step(s.result, 0, s.caches)
  {
    var s := ChannelPeerAlias(own, parse, gw, c, channelId, now);
    CachedResolutionIsFree(own, parse, gw', s.caches, channelId, now);
  }

  /**
   * A name fetched from the gateway is served from the cache for the whole
   * time-to-live window that starts at the fetch.
   */
  lemma FetchedNameServedWithinTtl(own: PublicKey, parse: Parser, gw: Gateway, gw': Gateway,
                                   c: CacheState, channelId: string, now: nat, later: nat)
    requires ChannelPeerAlias(own, parse, gw, c, channelId, now).result.Ok?
    requires !HasLiveName(c, ChannelPeer(own, parse, gw, c, channelId).result.value, now)
    requires now <= later < now + CACHE_EXPIRY
    ensures var s := ChannelPeerAlias(own, parse, gw, c, channelId, now);
            ChannelPeerAlias(own, parse, gw', s.caches, channelId, later) == Step(s.result, 0, s.caches)
  {
    var p := ChannelPeer(own, parse, gw, c, channelId);
    var s := ChannelPeerAlias(own, parse, gw, c, channelId, now);
    var a := NodeAlias(gw, p.caches, p.result.value, now);
    assert a.calls == 1;
    assert s.caches.names[p.result.value] == AliasEntry(s.result.value, now);
    CachedResolutionIsFree(own, parse, gw', s.caches, channelId, later);
  }

  /**
   * An expired alias is never served: with the peer still cached, the next
   * resolution issues the node lookup exactly once and stores the fresh name.
   */
  lemma ExpiredNameRefetched(own: PublicKey, parse: Parser, gw: Gateway, c: CacheState, channelId: string, now: nat)
    requires parse(channelId).Ok? && parse(channelId).value in c.channelPeers
    requires !HasLiveName(c, c.channelPeers[parse(channelId).value], now)
    ensures var s := ChannelPeerAlias(own, parse, gw, c, channelId, now);
            var pk := c.channelPeers[parse(channelId).value];
            s.calls == 1 && s.caches.channelPeers == c.channelPeers &&
            (gw.listNodes(pk).Ok? && gw.listNodes(pk).value != [] ==>
               s.result == Ok(AliasOrPubkey(gw.listNodes(pk).value[0], pk)) &&
               s.caches.names[pk] == AliasEntry(s.result.value, now))
  {
  }

  /**
   * Losing a channel-peer entry costs one lookup and nothing else: after a
   * resolution that fetched the peer, dropping its entry (`EvictChannelPeer`)
   * and resolving again against the same gateway gives the same name with
   * exactly one `listchannels` call, and the same caches as before the drop.
   */
  lemma EvictedChannelPeerRefetched(own: PublicKey, parse: Parser, gw: Gateway,
                                    c: CacheState, channelId: string, now: nat)
    requires ChannelPeerAlias(own, parse, gw, c, channelId, now).result.Ok?
    requires parse(channelId).value !in c.channelPeers
    ensures var s := ChannelPeerAlias(own, parse, gw, c, channelId, now);
            var evicted := s.caches.(channelPeers := s.caches.channelPeers - {parse(channelId).value});
            ChannelPeerAlias(own, parse, gw, evicted, channelId, now) == Step(s.result, 1, s.caches)
  {
    var id := parse(channelId).value;
    var p := ChannelPeer(own, parse, gw, c, channelId);
    var s := ChannelPeerAlias(own, parse, gw, c, channelId, now);
    var evicted := s.caches.(channelPeers := s.caches.channelPeers - {id});
    var q := ChannelPeer(own, parse, gw, evicted, channelId);
    assert q.result == p.result && q.calls == 1;
    assert q.caches.channelPeers == s.caches.channelPeers;
    assert q.caches == s.caches;
  }

  /**
   * Losing an alias entry costs one lookup and nothing else: after a
   * resolution that fetched the name, dropping it (`EvictName`) and resolving
   * again at the same time against the same gateway gives the same name with
   * exactly one `listnodes` call, and the same caches as before the drop.
   */
  lemma EvictedNameRefetched(own: PublicKey, parse: Parser, gw: Gateway,
                             c: CacheState, channelId: string, now: nat)
    requires ChannelPeerAlias(own, parse, gw, c, channelId, now).result.Ok?
    requires !HasLiveName(c, ChannelPeer(own, parse, gw, c, channelId).result.value, now)
    ensures var s := ChannelPeerAlias(own, parse, gw, c, channelId, now);
            var pk := s.caches.channelPeers[parse(channelId).value];
            var evicted := s.caches.(names := s.caches.names - {pk});
            ChannelPeerAlias(own, parse, gw, evicted, channelId, now) == Step(s.result, 1, s.caches)
  {
    var p := ChannelPeer(own, parse, gw, c, channelId);
    var pk := p.result.value;
    var s := ChannelPeerAlias(own, parse, gw, c, channelId, now);
    var a := NodeAlias(gw, p.caches, pk, now);
    assert a.calls == 1;
    var evicted := s.caches.(names := s.caches.names - {pk});
    assert ChannelPeer(own, parse, gw, evicted, channelId) == Step(Ok(pk), 0, evicted);
    var b := NodeAlias(gw, evicted, pk, now);
    assert b.result == a.result && b.calls == 1;
    assert b.caches.names == s.caches.names;
  }

  /**
   * The resolver shared by every dispatch: the local node's key, learned once
   * at start-up, and the two caches.  `rpcCalls` counts the round trips issued.
   */
  class NodeNames {
    const ownPubkey: PublicKey
    const parse: Parser
    var channelPeerCache: map<ShortChannelId, PublicKey>
    var nameCache: map<PublicKey, AliasEntry>
    ghost var rpcCalls: nat

    function State(): CacheState
      reads this
    {
      CacheState(channelPeerCache, nameCache)
    }

    /** Both caches start empty; `ownPubkey` is what `getinfo` reported. */
    constructor (ownPubkey: PublicKey, parse: Parser)
      ensures this.ownPubkey == ownPubkey && this.parse == parse
      ensures State() == CacheState(map[], map[]) && rpcCalls == 0
    {
      this.ownPubkey := ownPubkey;
      this.parse := parse;
      channelPeerCache := map[];
      nameCache := map[];
      rpcCalls := 0;
    }

    method GetChannelPeerAlias(gw: Gateway, channelId: string, now: nat) returns (r: Result<string, Error>)
      modifies this
      ensures var s := ChannelPeerAlias(ownPubkey, parse, gw, old(State()), channelId, now);
              r == s.result && State() == s.caches && rpcCalls == old(rpcCalls) + s.calls
    {
      var peer := GetChannelPeer(gw, channelId);
      if peer.Err? {
        return Err(peer.error);
      }
      r := GetNodeAlias(gw, peer.value, now);
    }

    method GetChannelPeer(gw: Gateway, channelId: string) returns (r: Result<PublicKey, Error>)
      modifies this
      ensures var s := ChannelPeer(ownPubkey, parse, gw, old(State()), channelId);
              r == s.result && State() == s.caches && rpcCalls == old(rpcCalls) + s.calls
    {
      var parsed := parse(channelId);
      if parsed.Err? {
        return Err(ParseFailure(parsed.error));
      }
      var id := parsed.value;
      if id in channelPeerCache {
        return Ok(channelPeerCache[id]);
      }
      rpcCalls := rpcCalls + 1;
      var reply := gw.listChannels(id);
      if reply.Err? {
        return Err(GatewayFailure(reply.error));
      }
      var channels := reply.value;
      if channels == [] {
        return Err(ChannelNotFound(channelId));
      }
      var peer := SelectPeer(ownPubkey, channels[0]);
      channelPeerCache := channelPeerCache[id := peer];
      return Ok(peer);
    }

    method GetNodeAlias(gw: Gateway, pk: PublicKey, now: nat) returns (r: Result<string, Error>)
      modifies this
      ensures var s := NodeAlias(gw, old(State()), pk, now);
              r == s.result && State() == s.caches && rpcCalls == old(rpcCalls) + s.calls
    {
      if pk in nameCache && Live(nameCache[pk], now) {
        return Ok(nameCache[pk].alias);
      }
      rpcCalls := rpcCalls + 1;
      var reply := gw.listNodes(pk);
      if reply.Err? {
        return Err(GatewayFailure(reply.error));
      }
      var nodes := reply.value;
      if nodes == [] {
        return Err(NodeNotFound(pk));
      }
      var alias := AliasOrPubkey(nodes[0], pk);
      nameCache := nameCache[pk := AliasEntry(alias, now)];
      return Ok(alias);
    }

    /** The cache library dropping a channel-peer entry under capacity pressure. */
    method EvictChannelPeer(id: ShortChannelId)
      modifies this
      ensures channelPeerCache == old(channelPeerCache) - {id}
      ensures nameCache == old(nameCache) && rpcCalls == old(rpcCalls)
    {
      channelPeerCache := channelPeerCache - {id};
    }

    /** The cache library dropping an alias entry under capacity pressure or once it has expired. */
    method EvictName(pk: PublicKey)
      modifies this
      ensures nameCache == old(nameCache) - {pk}
      ensures channelPeerCache == old(channelPeerCache) && rpcCalls == old(rpcCalls)
    {
      nameCache := nameCache - {pk};
    }
  }
}
