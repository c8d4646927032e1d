/** What the connection takes from outside when it writes a description of
    its own: the DTLS identity the engine generated (`dtlsInfo`,
    bridge/client/webrtc.js:1340-1358), and the random draws of
    `randomString` and `randomNumber` (used for the ICE credentials at
    webrtc.js:1760, 1790, 1875 and for the SSRCs at webrtc.js:1757, 1899-1901).
    The draws are given as functions of the position of the media line they
    are made for. */
module LocalParams {
  import opened Wrappers
  import opened Chars
  import opened SdpTypes

  /** `dtlsInfo`: the hash function and the fingerprint of the certificate. */
  datatype Identity = Identity(fingerprintHashFunction: string, fingerprint: string)

  /** The random draws: for the line at position `i`, `ufrag(i)` is
      `randomString(4)`, `password(i)` is `randomString(22)` and
      `ssrc(i)(k)` is the `k`-th `randomNumber(32)`; `sessionId` is the
      session id SDP.generate makes from `Math.random` and the date. */
  datatype Entropy = Entropy(
    ufrag: nat -> string,
    password: nat -> string,
    ssrc: nat -> nat -> nat,
    sessionId: string)

  /** The `dtls` object of a line the connection creates; the fingerprint
      is written in upper case. */
  function LocalDtls(id: Identity, setup: Setup): Dtls {
    Dtls(Some(id.fingerprintHashFunction), Some(UpperString(id.fingerprint)), Some(setup))
  }

  /** The `ice` object of a line the connection creates: fresh credentials,
      no candidates yet. */
  function NewIce(e: Entropy, i: nat, trickle: bool): Ice {
    Ice(Some(e.ufrag(i)), Some(e.password(i)), trickle, None, false)
  }

  /** The SSRCs a line must not reuse: the remote line's list, if any. */
  function Avoid(r: MediaDescription): seq<nat> {
    r.ssrcs.GetOr([])
  }

  /** The random source sooner or later draws a number outside `avoid`. */
  ghost predicate EventuallyFresh(draw: nat -> nat, avoid: seq<nat>) {
    exists k: nat :: draw(k) !in avoid
  }

  /** Some draw is the first one outside `avoid`. */
  lemma {:induction false} LeastFresh(draw: nat -> nat, avoid: seq<nat>, w: nat)
    requires draw(w) !in avoid
    ensures exists k: nat :: draw(k) !in avoid && forall j :: 0 <= j < k ==> draw(j) in avoid
    decreases w
  {
    if exists j :: 0 <= j < w && draw(j) !in avoid {
      var j :| 0 <= j < w && draw(j) !in avoid;
      LeastFresh(draw, avoid, j);
    }
  }

  /** The number of the first draw outside `avoid`. */
  ghost function FirstFreshAt(draw: nat -> nat, avoid: seq<nat>): (k: nat)
    requires EventuallyFresh(draw, avoid)
    ensures draw(k) !in avoid
    ensures forall j :: 0 <= j < k ==> draw(j) in avoid
  {
    var w: nat :| draw(w) !in avoid;
    LeastFresh(draw, avoid, w);
    var k: nat :| draw(k) !in avoid && forall j :: 0 <= j < k ==> draw(j) in avoid;
    k
  }

  /** The value of the first draw outside `avoid`. */
  ghost function FirstFresh(draw: nat -> nat, avoid: seq<nat>): nat
    requires EventuallyFresh(draw, avoid)
  {
    draw(FirstFreshAt(draw, avoid))
  }

  /** The `do { … } while` loop of createAnswer: draw until the number is
      not in the remote list. */
  method DrawFresh(draw: nat -> nat, avoid: seq<nat>) returns (s: nat)
    requires EventuallyFresh(draw, avoid)
    ensures s !in avoid
    ensures s == FirstFresh(draw, avoid)
  {
    ghost var w := FirstFreshAt(draw, avoid);
    var k := 0;
    s := draw(0);
    while s in avoid
      invariant k <= w && s == draw(k)
      invariant forall j :: 0 <= j < k ==> draw(j) in avoid
      decreases w - k
    {
      k := k + 1;
      s := draw(k);
    }
  }
}
