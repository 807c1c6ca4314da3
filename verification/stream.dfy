/** The buffered-stream core shared by every transport: a receive buffer of
    bytes, Python's `pattern in buffer` and `buffer.index(pattern)`, and the
    slicing rules that `read`, `peek`, `read_until` and `peek_until` apply to
    the buffer once their wait loop has ended. */
module ByteStream {
  import opened Wrappers

  newtype byte = b: int | 0 <= b < 256

  /** `p` occurs in `s` starting at index `i`. */
  predicate OccursAt(s: seq<byte>, p: seq<byte>, i: nat) {
    i + |p| <= |s| && s[i..i + |p|] == p
  }

  /** Python's `p in s` for byte strings (the empty pattern occurs everywhere):
      some occurrence exists. */
  predicate Contains(s: seq<byte>, p: seq<byte>)
  {
    FirstMatchFrom(s, p, 0).Some?
  }

  lemma ContainsIff(s: seq<byte>, p: seq<byte>)
    ensures Contains(s, p) <==> exists i: nat :: OccursAt(s, p, i)
  {
  }

  /** Left-to-right search for `p` in `s` from index `i`. */
  function FirstMatchFrom(s: seq<byte>, p: seq<byte>, i: nat): (r: Option<nat>)
    decreases |s| - i
    ensures r.Some? ==> i <= r.value && OccursAt(s, p, r.value)
    ensures forall j: nat :: i <= j && (r.None? || j < r.value) ==> !OccursAt(s, p, j)
  {
    if i + |p| > |s| then None
    else if s[i..i + |p|] == p then Some(i)
    else FirstMatchFrom(s, p, i + 1)
  }

  /** Python's `s.index(p)`: the start of the first occurrence of `p`; `None`
      stands for the ValueError raised when there is none. */
  function IndexOf(s: seq<byte>, p: seq<byte>): (r: Option<nat>)
    ensures r.Some? <==> Contains(s, p)
    ensures r.Some? ==> OccursAt(s, p, r.value)
    ensures r.Some? ==> forall j: nat :: j < r.value ==> !OccursAt(s, p, j)
  {
    var r := FirstMatchFrom(s, p, 0);
    assert r.Some? ==> r.value <= |s|;
    r
  }

  /** How many bytes `read(n)` and `peek(n)` take from a buffer `w`:
      `min(len(w), n)`. */
  function TakeLength(w: seq<byte>, n: nat): nat {
    Min(|w|, n)
  }

  /** How many bytes `read_until(p)` takes from a buffer `w`: through the end
      of the first occurrence of `p`, or the whole buffer when there is none. */
  function UntilLength(w: seq<byte>, p: seq<byte>): (k: nat)
    ensures k <= |w|
    ensures Contains(w, p) ==> |p| <= k && OccursAt(w, p, k - |p|)
    ensures Contains(w, p) ==> forall j: nat :: j + |p| < k ==> !OccursAt(w, p, j)
    ensures !Contains(w, p) ==> k == |w|
  {
    match IndexOf(w, p)
    case Some(i) => i + |p|
    case None => |w|
  }

  /** What `read_until(p)` returns from a buffer `w` once its wait has ended,
      and what it leaves behind: through the end of the first match, or
      everything (leaving the buffer empty) when there is no match. */
  function SplitUntil(w: seq<byte>, p: seq<byte>): (parts: (seq<byte>, seq<byte>))
    ensures parts.0 + parts.1 == w
    ensures parts.0 == w[..UntilLength(w, p)] && parts.1 == w[UntilLength(w, p)..]
    ensures !Contains(w, p) ==> parts.1 == []
  {
    match IndexOf(w, p)
    case Some(i) =>
      var length := i + |p|;
      (w[..length], w[length..])
    case None => (w, [])
  }

  /** Cutting a buffer in two keeps its bytes, also ahead of bytes still to come. */
  lemma CutKeepsBytes(w: seq<byte>, k: nat, rest: seq<byte>)
    requires k <= |w|
    ensures w[..k] + w[k..] == w
    ensures w[..k] + (w[k..] + rest) == w + rest
  {
    assert w == w[..k] + w[k..];
  }

  /** How many bytes a correct `peek_until(p, max_length)` returns from a
      buffer `w`: what `read_until` would take, cut at `max_length` when one
      is given. */
  function PeekUntilLength(w: seq<byte>, p: seq<byte>, maxLength: Option<nat>): (k: nat)
    ensures k <= |w| && k <= UntilLength(w, p)
    ensures maxLength.Some? ==> k <= maxLength.value
    ensures k == UntilLength(w, p) || (maxLength.Some? && k == maxLength.value)
  {
    var length := match IndexOf(w, p) case Some(i) => i + |p| case None => |w|;
    if maxLength.Some? && length > maxLength.value then maxLength.value else length
  }

  /** The condition a wait loop keeps polling under (the lambdas handed to the
      socket's `__update_while` and the loop guards of the BLE awaits). */
  datatype WaitCondition =
    | FewerThan(n: nat)                                   // len(buffer) < n
    | PatternAbsent(p: seq<byte>, maxLength: Option<nat>) // p not in buffer and len(buffer) < max_length

  predicate Waiting(c: WaitCondition, buffer: seq<byte>) {
    match c
    case FewerThan(n) => |buffer| < n
    case PatternAbsent(p, maxLength) =>
      !Contains(buffer, p) && (maxLength.None? || |buffer| < maxLength.value)
  }

  /** Every wait condition holds of a prefix of a buffer it holds of: a
      buffer that only grows can stop a wait loop but never restart it. */
  lemma WaitingShrinks(c: WaitCondition, b1: seq<byte>, b2: seq<byte>)
    requires b1 <= b2 && Waiting(c, b2)
    ensures Waiting(c, b1)
  {
    if c.PatternAbsent? && Contains(b1, c.p) {
      var i := FirstMatchFrom(b1, c.p, 0).value;
      assert b2[i..i + |c.p|] == b1[i..i + |c.p|];
      assert OccursAt(b2, c.p, i);
    }
  }

  /** The bytes of successive chunks, in order. */
  function Flatten(chunks: seq<seq<byte>>): seq<byte> {
    if chunks == [] then [] else chunks[0] + Flatten(chunks[1..])
  }

  lemma {:induction false} FlattenAppend(a: seq<seq<byte>>, b: seq<seq<byte>>)
    ensures Flatten(a + b) == Flatten(a) + Flatten(b)
  {
    if a == [] {
      assert a + b == b;
    } else {
      assert (a + b)[1..] == a[1..] + b;
      FlattenAppend(a[1..], b);
    }
  }

  /** Taking one more chunk appends that chunk's bytes. */
  lemma FlattenPrefixStep(chunks: seq<seq<byte>>, k: nat)
    requires k < |chunks|
    ensures Flatten(chunks[..k + 1]) == Flatten(chunks[..k]) + chunks[k]
  {
    assert chunks[..k + 1] == chunks[..k] + [chunks[k]];
    FlattenAppend(chunks[..k], [chunks[k]]);
    assert Flatten([chunks[k]]) == chunks[k] + Flatten([]);
  }

  /** Splitting a chunk list splits its bytes. */
  lemma FlattenSplit(chunks: seq<seq<byte>>, k: nat)
    requires k <= |chunks|
    ensures Flatten(chunks) == Flatten(chunks[..k]) + Flatten(chunks[k..])
  {
    assert chunks == chunks[..k] + chunks[k..];
    FlattenAppend(chunks[..k], chunks[k..]);
  }

  /** Latin-1 text as bytes, for stating examples. */
  function Ascii(s: string): (r: seq<byte>)
    requires forall i :: 0 <= i < |s| ==> s[i] as int < 256
    ensures |r| == |s|
    ensures forall i :: 0 <= i < |s| ==> r[i] as int == s[i] as int
  {
    if s == [] then [] else [s[0] as int as byte] + Ascii(s[1..])
  }
}
