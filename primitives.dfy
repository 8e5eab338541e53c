/**
 * The identifiers the plugin receives from the node's control interface:
 * short channel ids, node public keys, and the errors the resolver and the
 * dispatcher raise.  Parsing a short channel id belongs to the RPC client
 * library and is an abstract parameter here; a public key is displayed as
 * the lowercase hex of its serialised bytes.
 */
module Primitives {
  import opened Wrappers

  type Byte = x: int | 0 <= x < 256

  /** A short channel id: block height, transaction index and output index. */
  datatype ShortChannelId = ShortChannelId(block: nat, txIndex: nat, outNum: nat)

  /** A node's public key, as the bytes of its serialised form. */
  datatype PublicKey = PublicKey(bytes: seq<Byte>)

  /** The client library's parser for short channel ids; an error carries its message. */
  type Parser = string -> Result<ShortChannelId, string>

  predicate IsHexDigit(c: char) {
    '0' <= c <= '9' || 'a' <= c <= 'f'
  }

  function HexDigit(d: int): (c: char)
    requires 0 <= d < 16
    ensures IsHexDigit(c)
  {
    if d < 10 then ('0' as int + d) as char else ('a' as int + d - 10) as char
  }

  lemma HexDigitInjective(d: int, e: int)
    requires 0 <= d < 16 && 0 <= e < 16
    ensures HexDigit(d) == HexDigit(e) ==> d == e
  {
  }

  /** Two hex digits per byte, high nibble first. */
  function Hex(bs: seq<Byte>): (s: string)
    ensures |s| == 2 * |bs|
    ensures forall i :: 0 <= i < |s| ==> IsHexDigit(s[i])
  {
    if bs == [] then [] else [HexDigit(bs[0] / 16), HexDigit(bs[0] % 16)] + Hex(bs[1..])
  }

  lemma {:induction false} HexInjective(a: seq<Byte>, b: seq<Byte>)
    requires Hex(a) == Hex(b)
    ensures a == b
  {
    if a != [] {
      assert |b| == |a|;
      var ha, hb := Hex(a), Hex(b);
      assert ha[0] == hb[0] && ha[1] == hb[1];
      HexDigitInjective(a[0] / 16, b[0] / 16);
      HexDigitInjective(a[0] % 16, b[0] % 16);
      assert a[0] == b[0];
      assert Hex(a[1..]) == ha[2..] == hb[2..] == Hex(b[1..]);
      HexInjective(a[1..], b[1..]);
      assert a == [a[0]] + a[1..];
      assert b == [b[0]] + b[1..];
    }
  }

  /** `PublicKey::to_string`: the lowercase hex of the key's bytes. */
  function PubkeyString(pk: PublicKey): (s: string)
    ensures |s| == 2 * |pk.bytes|
    ensures forall i :: 0 <= i < |s| ==> IsHexDigit(s[i])
  {
    Hex(pk.bytes)
  }

  /** Distinct keys never display alike, so the alias fallback never confuses two nodes. */
  lemma PubkeyStringInjective(p: PublicKey, q: PublicKey)
    ensures PubkeyString(p) == PubkeyString(q) <==> p == q
  {
    if PubkeyString(p) == PubkeyString(q) {
      HexInjective(p.bytes, q.bytes);
    }
  }

  /** The errors of the resolver and the dispatcher, each with the message the source attaches. */
  datatype Error =
    | ParseFailure(parseMessage: string)        // the short channel id parser rejected its input
    | GatewayFailure(gatewayMessage: string)    // connecting to the node or the call itself failed
    | ChannelNotFound(channelId: string)
    | NodeNotFound(pubkey: PublicKey)
    | MissingForwardEvent
    | MissingStatus

  function Message(e: Error): (m: string)
    // the library's own messages are passed on verbatim
    ensures e.ParseFailure? ==> m == e.parseMessage
    ensures e.GatewayFailure? ==> m == e.gatewayMessage
    // a not-found message names what was looked up, after a fixed prefix
    ensures e.ChannelNotFound? ==> "could not find channel with id: " <= m && m[32..] == e.channelId
    ensures e.NodeNotFound? ==> "could not find node with id: " <= m && m[29..] == PubkeyString(e.pubkey)
    ensures e.MissingForwardEvent? ==> m == "could not parse forward event"
    ensures e.MissingStatus? ==> m == "could not parse forward event status"
  {
    match e
    case ParseFailure(msg) => msg
    case GatewayFailure(msg) => msg
    case ChannelNotFound(id) => "could not find channel with id: " + id
    case NodeNotFound(pk) => "could not find node with id: " + PubkeyString(pk)
    case MissingForwardEvent => "could not parse forward event"
    case MissingStatus => "could not parse forward event status"
  }

  /** A not-found message identifies the key or the id it was raised for. */
  lemma NotFoundMessagesIdentify(p: PublicKey, q: PublicKey, a: string, b: string)
    ensures Message(NodeNotFound(p)) == Message(NodeNotFound(q)) <==> p == q
    ensures Message(ChannelNotFound(a)) == Message(ChannelNotFound(b)) <==> a == b
  {
    if Message(NodeNotFound(p)) == Message(NodeNotFound(q)) {
      PubkeyStringInjective(p, q);
    }
  }
}
