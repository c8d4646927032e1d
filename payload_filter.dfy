/** The two passes through which `setRemoteDescription` narrows the codecs of
    a remote audio or video line (bridge/client/webrtc.js:2049-2060): first
    keep the payloads whose upper-cased encoding name is one of the default
    codecs of the line's kind, with an agreeing packetization mode where
    both declare parameters; then drop the retransmission payloads whose
    `apt` names a payload type the first pass did not keep. */
module PayloadFilter {
  import opened Wrappers
  import opened Chars
  import opened SdpTypes
  import opened Defaults

  /** `Array.prototype.filter`. */
  function Filter<T>(xs: seq<T>, keep: T -> bool): (r: seq<T>)
    ensures |r| <= |xs|
  {
    if xs == [] then []
    else (if keep(xs[0]) then [xs[0]] else []) + Filter(xs[1..], keep)
  }

  /** `a` is `b` with some elements left out and the rest in their order:
      `idx` says where each element of `a` sits in `b`. */
  ghost predicate SubsequenceAt<T>(a: seq<T>, b: seq<T>, idx: seq<nat>) {
    |idx| == |a|
    && (forall k :: 0 <= k < |idx| ==> idx[k] < |b| && a[k] == b[idx[k]])
    && (forall k, l :: 0 <= k < l < |idx| ==> idx[k] < idx[l])
  }

  ghost predicate IsSubsequence<T>(a: seq<T>, b: seq<T>) {
    exists idx :: SubsequenceAt(a, b, idx)
  }

  function Shift(idx: seq<nat>): (r: seq<nat>)
    ensures |r| == |idx|
    ensures forall k :: 0 <= k < |idx| ==> r[k] == idx[k] + 1
  {
    seq(|idx|, k requires 0 <= k < |idx| => idx[k] + 1)
  }

  /** A filter keeps elements in their order and invents none. */
  lemma {:induction false} FilterIsSubsequence<T>(xs: seq<T>, keep: T -> bool)
    ensures IsSubsequence(Filter(xs, keep), xs)
  {
    if xs == [] {
      assert SubsequenceAt<T>([], xs, []);
    } else {
      FilterIsSubsequence(xs[1..], keep);
      var rest := Filter(xs[1..], keep);
      var idx :| SubsequenceAt(rest, xs[1..], idx);
      if keep(xs[0]) {
        KeepHead(rest, xs, idx);
      } else {
        assert Filter(xs, keep) == rest;
        DropHead(rest, xs, idx);
      }
    }
  }

  lemma DropHead<T>(a: seq<T>, b: seq<T>, idx: seq<nat>)
    requires b != [] && SubsequenceAt(a, b[1..], idx)
    ensures SubsequenceAt(a, b, Shift(idx))
  {
  }

  lemma KeepHead<T>(a: seq<T>, b: seq<T>, idx: seq<nat>)
    requires b != [] && SubsequenceAt(a, b[1..], idx)
    ensures SubsequenceAt([b[0]] + a, b, [0] + Shift(idx))
  {
    var idx' := [0] + Shift(idx);
    forall k | 0 < k < |idx'|
      ensures ([b[0]] + a)[k] == b[idx'[k]]
    {
      assert idx'[k] == idx[k - 1] + 1;
    }
  }

  /** A filter keeps exactly the elements that pass. */
  lemma {:induction false} FilterMembers<T>(xs: seq<T>, keep: T -> bool, x: T)
    ensures x in Filter(xs, keep) <==> x in xs && keep(x)
  {
    if xs != [] {
      FilterMembers(xs[1..], keep, x);
      assert xs == [xs[0]] + xs[1..];
    }
  }

  /** `parameters[key]`: the value of the first entry with that key. */
  function Param(ps: Params, key: string): (r: Option<ParamValue>)
    ensures r.Some? <==> exists i :: 0 <= i < |ps| && ps[i].0 == key
  {
    if ps == [] then None
    else if ps[0].0 == key then Some(ps[0].1)
    else
      var r := Param(ps[1..], key);
      assert forall i :: 1 <= i < |ps| ==> ps[i] == ps[1..][i - 1];
      r
  }

  /** `indexOfByProperty(defaultPayloads[type], "encodingName", name)`: the
      first default codec with that name. */
  function DefaultNamed(ds: seq<Payload>, name: string): (r: Option<Payload>)
    ensures r.Some? ==> r.value in ds && r.value.encodingName == Some(name)
    ensures r.None? ==> forall d :: d in ds ==> d.encodingName != Some(name)
  {
    if ds == [] then None
    else if ds[0].encodingName == Some(name) then Some(ds[0])
    else
      var r := DefaultNamed(ds[1..], name);
      assert forall d :: d in ds ==> d == ds[0] || d in ds[1..];
      r
  }

  /** The first pass. Parameter values compare with JavaScript's loose
      equality; a missing value is undefined, and a text value (one that
      does not read as a number) never equals a number. */
  predicate Supported(t: MediaType, p: Payload) {
    p.encodingName.Some? &&
    match DefaultNamed(DefaultPayloads(t), UpperString(p.encodingName.value))
    case None => false
    case Some(dp) =>
      dp.parameters.None? || p.parameters.None?
      || Param(p.parameters.value, "packetizationMode") == Param(dp.parameters.value, "packetizationMode")
  }

  predicate HasType(ps: seq<Payload>, n: nat) {
    exists i :: 0 <= i < |ps| && ps[i].payloadType == Some(n)
  }

  /** The second pass: a payload without parameters, without an `apt`, or
      with a false one (0 or empty) stays; otherwise its `apt` must be the
      type of a payload the first pass kept. */
  predicate AptResolved(first: seq<Payload>, p: Payload) {
    p.parameters.None? ||
    match Param(p.parameters.value, "apt")
    case None => true
    case Some(Num(n)) => n == 0 || HasType(first, n)
    case Some(Str(s)) => s == ""
  }

  function FirstPass(t: MediaType, ps: seq<Payload>): seq<Payload> {
    Filter(ps, p => Supported(t, p))
  }

  predicate Unnamed(ps: seq<Payload>) {
    exists i :: 0 <= i < |ps| && ps[i].encodingName.None?
  }

  /** Both passes over a line's payloads. A payload without an encoding
      name makes `toUpperCase` throw, and the whole operation with it:
      `None`. */
  function FilterPayloads(t: MediaType, ps: seq<Payload>): (r: Option<seq<Payload>>)
    ensures r.None? <==> Unnamed(ps)
  {
    if Unnamed(ps) then None
    else
      var first := FirstPass(t, ps);
      Some(Filter(first, p => AptResolved(first, p)))
  }

  /** The filtered list is an order-preserving subsequence of the remote
      list. */
  lemma FilterPayloadsSubsequence(t: MediaType, ps: seq<Payload>)
    requires !Unnamed(ps)
    ensures IsSubsequence(FilterPayloads(t, ps).value, ps)
  {
    var first := FirstPass(t, ps);
    var out := FilterPayloads(t, ps).value;
    FilterIsSubsequence(ps, p => Supported(t, p));
    FilterIsSubsequence(first, p => AptResolved(first, p));
    var i1 :| SubsequenceAt(first, ps, i1);
    var i2 :| SubsequenceAt(out, first, i2);
    var idx := seq(|i2|, k requires 0 <= k < |i2| => i1[i2[k]]);
    assert SubsequenceAt(out, ps, idx);
  }

  /** A payload is kept exactly when it is one of the default codecs of the
      line's kind with an agreeing packetization mode, and its `apt`, if
      any, names a payload type that passed the first test. */
  lemma FilterPayloadsKeeps(t: MediaType, ps: seq<Payload>, p: Payload)
    requires !Unnamed(ps)
    ensures p in FilterPayloads(t, ps).value <==>
      p in ps && Supported(t, p) && AptResolved(FirstPass(t, ps), p)
  {
    var first := FirstPass(t, ps);
    FilterMembers(ps, q => Supported(t, q), p);
    FilterMembers(first, q => AptResolved(first, q), p);
  }

  /** The packetization-mode rule at work on H.264: a remote H.264 payload
      with parameters but no packetization mode is refused, since the
      default declares mode 1. */
  lemma H264NeedsPacketizationMode(p: Payload)
    requires p.encodingName.Some? && UpperString(p.encodingName.value) == "H264"
    requires p.parameters.Some? && Param(p.parameters.value, "packetizationMode").None?
    ensures !Supported(Video, p)
  {
    assert DefaultNamed(VideoDefaults(), "H264") == Some(VideoDefaults()[0]);
    assert Param(VideoDefaults()[0].parameters.value, "packetizationMode") == Some(Num(1));
  }
}
