/**
 * The payment-callback signature check of api/index.js (`verifySignature`):
 * the canonical message `orderId|paymentId` and its comparison with the
 * HMAC-SHA256 hex digest the gateway sent.
 */
module Signature {
  import opened Wrappers
  import Seqs

  /**
   * The keyed hash, as a parameter: `hmac(secret, message)` is the lowercase hex
   * HMAC-SHA256 digest of `message` under `secret`.
   */
  type Hmac = (string, string) -> string

  const Separator: char := '|'

  /** The signed message: the order id, a literal pipe, the payment id, no escaping. */
  function Message(orderId: string, paymentId: string): (m: string)
    ensures |m| == |orderId| + 1 + |paymentId|
    ensures m[..|orderId|] == orderId
    ensures m[|orderId|] == Separator
    ensures m[|orderId| + 1..] == paymentId
  {
    orderId + [Separator] + paymentId
  }

  /** Splits a message at its first pipe. */
  function Split(m: string): (r: Option<(string, string)>)
    ensures r.None? <==> Separator !in m
    ensures r.Some? ==> Separator !in r.value.0 && Message(r.value.0, r.value.1) == m
  {
    match Seqs.FindFirst(m, (c: char) => c == Separator)
    case None => None
    case Some(k) =>
      assert m == m[..k] + [Separator] + m[k + 1..];
      Some((m[..k], m[k + 1..]))
  }

  /** For a pipe-free order id the message splits back into the pair it was built from. */
  lemma SplitMessage(orderId: string, paymentId: string)
    requires Separator !in orderId
    ensures Split(Message(orderId, paymentId)) == Some((orderId, paymentId))
  {
    var m := Message(orderId, paymentId);
    var k := |orderId|;
    assert forall j :: 0 <= j < k ==> m[j] == orderId[j];
    assert Seqs.FindFirst(m, (c: char) => c == Separator) == Some(k);
  }

  /** Pipe-free order ids make the message determine the pair. */
  lemma MessageUnambiguous(o1: string, p1: string, o2: string, p2: string)
    requires Separator !in o1 && Separator !in o2
    requires Message(o1, p1) == Message(o2, p2)
    ensures o1 == o2 && p1 == p2
  {
    SplitMessage(o1, p1);
    SplitMessage(o2, p2);
  }

  /** Without that restriction two different pairs share one message. */
  lemma MessageAmbiguousWithPipe()
    ensures Message("a|b", "c") == Message("a", "b|c")
    ensures ("a|b", "c") != ("a", "b|c")
  {
  }

  /** The signature the gateway attaches to a genuine callback. */
  function GatewaySignature(hmac: Hmac, secret: string, orderId: string, paymentId: string): string {
    hmac(secret, Message(orderId, paymentId))
  }

  /** Accepts exactly the hex HMAC of `orderId|paymentId` under the secret (plain string equality). */
  function VerifySignature(hmac: Hmac, secret: string, orderId: string, paymentId: string,
                           signature: string): (ok: bool)
    ensures ok <==> signature == GatewaySignature(hmac, secret, orderId, paymentId)
  {
    var expected := hmac(secret, orderId + "|" + paymentId);
    expected == signature
  }

  /**
   * A signature made for one pair passes for a different pair (pipe-free order ids)
   * only when the HMAC collides on two different messages.
   */
  lemma ReplayNeedsCollision(hmac: Hmac, secret: string, o1: string, p1: string, o2: string, p2: string)
    requires Separator !in o1 && Separator !in o2
    requires (o1, p1) != (o2, p2)
    requires VerifySignature(hmac, secret, o2, p2, GatewaySignature(hmac, secret, o1, p1))
    ensures Message(o1, p1) != Message(o2, p2)
    ensures hmac(secret, Message(o1, p1)) == hmac(secret, Message(o2, p2))
  {
    if Message(o1, p1) == Message(o2, p2) {
      MessageUnambiguous(o1, p1, o2, p2);
    }
  }
}
