/** The socket-family transport (`ThreespaceSocketComClass`, also the base of
    the Bluetooth Classic transport): an open/closed flag over a socket and a
    receive buffer that polling fills at the tail and the four read
    operations consume from the head.

    The environment is explicit. `arrivals` lists what successive
    non-blocking `recv` calls return (an empty chunk is the `b''` of a peer
    that closed); once it is empty, `recv` would block. `clock` is abstract
    time: every poll of the wait loop takes one tick, and `timeout` is counted
    in ticks. */
module SocketTransport {
  import opened Wrappers
  import opened ByteStream

  /** The initial read timeout. */
  const DefaultTimeout: nat := 2

  /** What the socket's `peek_until` hands back: a slice, or, from its
      no-match branch, the single byte `buffer[length]` or the IndexError that
      indexing raises. */
  datatype PeekUntilOutcome = Slice(bytes: seq<byte>) | SingleByte(value: byte) | IndexError

  /** `peek_until` exactly as the socket transport computes it once its wait
      has ended. */
  function PeekUntilAsWritten(w: seq<byte>, p: seq<byte>, maxLength: Option<nat>): (r: PeekUntilOutcome)
    ensures Contains(w, p) ==> r == Slice(w[..PeekUntilLength(w, p, maxLength)])
    ensures !Contains(w, p) ==> !r.Slice?
    ensures r.SingleByte? <==> !Contains(w, p) && maxLength.Some? && maxLength.value < |w|
    ensures r.SingleByte? ==> r.value == w[maxLength.value]
  {
    match IndexOf(w, p)
    case Some(i) =>
      var length := i + |p|;
      var length' := if maxLength.Some? then Min(length, maxLength.value) else length;
      Slice(w[..length'])
    case None =>
      var length := if maxLength.Some? then Min(|w|, maxLength.value) else |w|;
      if length < |w| then SingleByte(w[length]) else IndexError
  }

  /** Without a match, the as-written `peek_until` never returns the bytes it
      should: it raises IndexError whenever no `max_length` below the buffer
      length is given, and otherwise returns one byte instead of a slice. */
  lemma PeekUntilNoMatchDiverges(w: seq<byte>, p: seq<byte>, maxLength: Option<nat>)
    requires !Contains(w, p)
    ensures PeekUntilAsWritten(w, p, maxLength) != Slice(w[..PeekUntilLength(w, p, maxLength)])
    ensures maxLength.None? || maxLength.value >= |w| ==> PeekUntilAsWritten(w, p, maxLength) == IndexError
  {
  }

  /** The buffer "ABC" holds no newline: peeking until a newline raises
      IndexError where the whole buffer was intended. */
  lemma PeekUntilNoMatchCounterexample()
    ensures var w := Ascii("ABC"); var p := Ascii("\n");
      PeekUntilAsWritten(w, p, None) == IndexError && w[..PeekUntilLength(w, p, None)] == w
  {
  }

  /** The buffer after `q` polls of a wait loop that started with buffer `b`
      and pending arrivals `arr`: each poll takes the next chunk, if any. */
  function BufferAfterPolls(b: seq<byte>, arr: seq<seq<byte>>, q: nat): seq<byte> {
    b + Flatten(arr[..Min(q, |arr|)])
  }

  /** The arrivals still pending after `q` such polls. */
  function PendingAfterPolls(arr: seq<seq<byte>>, q: nat): seq<seq<byte>> {
    arr[Min(q, |arr|)..]
  }

  /** One more poll moves the next pending chunk, if any, to the buffer: the
      effect of one `__update_buffer`. */
  lemma PollStep(b: seq<byte>, arr: seq<seq<byte>>, q: nat)
    ensures var rest := PendingAfterPolls(arr, q);
      if rest != [] then
        BufferAfterPolls(b, arr, q + 1) == BufferAfterPolls(b, arr, q) + rest[0] &&
        PendingAfterPolls(arr, q + 1) == rest[1..]
      else
        BufferAfterPolls(b, arr, q + 1) == BufferAfterPolls(b, arr, q) &&
        PendingAfterPolls(arr, q + 1) == rest
  {
    if q < |arr| {
      FlattenPrefixStep(arr, q);
    }
  }

  /** Polling moves bytes from the pending arrivals to the buffer and loses none. */
  lemma PollsKeepBytes(b: seq<byte>, arr: seq<seq<byte>>, q: nat)
    ensures BufferAfterPolls(b, arr, q) + Flatten(PendingAfterPolls(arr, q)) == b + Flatten(arr)
  {
    FlattenSplit(arr, Min(q, |arr|));
  }

  /** Polling only appends to the buffer. */
  lemma BufferAfterPollsGrows(b: seq<byte>, arr: seq<seq<byte>>, q1: nat, q2: nat)
    requires q1 <= q2
    ensures BufferAfterPolls(b, arr, q1) <= BufferAfterPolls(b, arr, q2)
  {
    var k1, k2 := Min(q1, |arr|), Min(q2, |arr|);
    assert arr[..k2][..k1] == arr[..k1];
    FlattenSplit(arr[..k2], k1);
  }

  /** A wait loop whose last poll was made while its condition held had the
      condition hold at every earlier poll too: it never stops early. */
  lemma EarlierPollsWaited(cond: WaitCondition, b: seq<byte>, arr: seq<seq<byte>>, polls: nat)
    requires polls > 0 && Waiting(cond, BufferAfterPolls(b, arr, polls - 1))
    ensures forall q: nat :: q < polls ==> Waiting(cond, BufferAfterPolls(b, arr, q))
  {
    forall q: nat | q < polls
      ensures Waiting(cond, BufferAfterPolls(b, arr, q))
    {
      BufferAfterPollsGrows(b, arr, q, polls - 1);
      WaitingShrinks(cond, BufferAfterPolls(b, arr, q), BufferAfterPolls(b, arr, polls - 1));
    }
  }

  /** A wait loop that started from buffer `b` with pending arrivals `arr`
      and made `q` polls under `timeout`: it polled exactly when the condition
      held at the start, it was still waiting before its last poll (so by
      `EarlierPollsWaited` before every poll), it ended with the condition
      false or the timeout reached, and it made at most `max(timeout, 1)`
      polls. */
  ghost predicate WaitedFor(cond: WaitCondition, b: seq<byte>, arr: seq<seq<byte>>, timeout: nat, q: nat) {
    && q <= Max(timeout, 1)
    && (q > 0 <==> Waiting(cond, b))
    && (q > 0 ==> Waiting(cond, BufferAfterPolls(b, arr, q - 1)))
    && (!Waiting(cond, BufferAfterPolls(b, arr, q)) || q >= timeout)
  }

  class SocketComm {
    /** `_opened`. */
    var isOpen: bool
    /** Whether `socket.close()` has been called on the underlying socket. */
    var socketClosed: bool
    var buffer: seq<byte>
    var timeout: nat
    var clock: nat
    var arrivals: seq<seq<byte>>
    /** The payloads of `socket.send` calls, in order. */
    var sent: seq<seq<byte>>

    /** Everything received or still to be received, in order: what no
        operation except a read may lose, duplicate or reorder. */
    ghost function Unread(): seq<byte>
      reads this
    {
      buffer + Flatten(arrivals)
    }

    constructor (incoming: seq<seq<byte>>)
      ensures !isOpen && !socketClosed && buffer == [] && timeout == DefaultTimeout
      ensures arrivals == incoming && sent == [] && clock == 0
    {
      isOpen, socketClosed := false, false;
      buffer, timeout, clock := [], DefaultTimeout, 0;
      arrivals, sent := incoming, [];
    }

    function CheckOpen(): bool
      reads this
    {
      isOpen
    }

    /** `connectSucceeds` is whether `socket.connect` would succeed; a socket
        that has been closed cannot connect again. */
    method Open(connectSucceeds: bool) returns (ok: bool)
      modifies this`isOpen, this`socketClosed
      ensures old(isOpen) ==> ok && isOpen && socketClosed == old(socketClosed)
      ensures !old(isOpen) ==> ok == (connectSucceeds && !old(socketClosed))
      ensures !old(isOpen) ==> isOpen == ok && socketClosed == (old(socketClosed) || !ok)
    {
      if isOpen {
        return true;
      }
      if !connectSucceeds || socketClosed {
        // The failed socket is closed and the failure reported.
        socketClosed := true;
        return false;
      }
      isOpen := true;
      return true;
    }

    method Close()
      modifies this`isOpen, this`socketClosed
      ensures !CheckOpen()
      ensures socketClosed == (old(socketClosed) || old(isOpen))
    {
      if !isOpen {
        return;
      }
      socketClosed := true;
      isOpen := false;
    }

    /** `socket.send` hands the kernel the first `accepted` bytes (all of
        them when `accepted` is at least the length) and returns that count,
        which `write` discards: the rest of the data is never sent. */
    method Write(data: seq<byte>, accepted: nat)
      modifies this`sent
      ensures sent == old(sent) + [data[..Min(accepted, |data|)]]
      ensures accepted < |data| ==> |sent[|sent| - 1]| < |data|
    {
      sent := sent + [data[..Min(accepted, |data|)]];
    }

    /** Data reaching the socket between calls: the environment queues one
        more chunk for later `recv` calls to return, behind those pending. */
    method Arrive(chunk: seq<byte>)
      modifies this`arrivals
      ensures arrivals == old(arrivals) + [chunk]
      ensures Unread() == old(Unread()) + chunk
    {
      FlattenAppend(arrivals, [chunk]);
      assert Flatten([chunk]) == chunk + Flatten([]);
      arrivals := arrivals + [chunk];
    }

    /** `__update_buffer`: one non-blocking `recv`; false when it would block. */
    method UpdateBuffer() returns (received: bool)
      modifies this`buffer, this`arrivals
      ensures received == (old(arrivals) != [])
      ensures received ==> buffer == old(buffer) + old(arrivals)[0] && arrivals == old(arrivals)[1..]
      ensures !received ==> buffer == old(buffer) && arrivals == old(arrivals)
    {
      if arrivals == [] {
        return false;
      }
      buffer := buffer + arrivals[0];
      arrivals := arrivals[1..];
      return true;
    }

    /** `__update_while`: poll while `cond` holds, giving up once the elapsed
        time reaches `timeout` (checked after each poll, so a true condition
        gets at least one poll). `polls` is the number of polls made. */
    method UpdateWhile(cond: WaitCondition) returns (polls: nat)
      modifies this`buffer, this`arrivals, this`clock
      ensures clock == old(clock) + polls
      ensures buffer == BufferAfterPolls(old(buffer), old(arrivals), polls)
      ensures arrivals == PendingAfterPolls(old(arrivals), polls)
      ensures Unread() == old(Unread())
      ensures polls > 0 <==> Waiting(cond, old(buffer))
      ensures polls == 0 ==> buffer == old(buffer) && arrivals == old(arrivals)
      ensures polls <= Max(timeout, 1)
      ensures !Waiting(cond, buffer) || polls >= timeout
      ensures polls > 0 ==> Waiting(cond, BufferAfterPolls(old(buffer), old(arrivals), polls - 1))
    {
      ghost var b0, a0 := buffer, arrivals;
      var start := clock;
      polls := 0;
      assert a0[..0] == [];
      while Waiting(cond, buffer)
        invariant clock == start + polls
        invariant polls == 0 || polls < timeout
        invariant buffer == BufferAfterPolls(b0, a0, polls)
        invariant arrivals == PendingAfterPolls(a0, polls)
        invariant polls > 0 ==> Waiting(cond, b0) && Waiting(cond, BufferAfterPolls(b0, a0, polls - 1))
        decreases timeout + 1 - polls
      {
        PollStep(b0, a0, polls);
        var _ := UpdateBuffer();
        clock := clock + 1;
        polls := polls + 1;
        if clock - start >= timeout {
          break;
        }
      }
      PollsKeepBytes(b0, a0, polls);
    }

    method Read(n: nat) returns (r: seq<byte>)
      modifies this`buffer, this`arrivals, this`clock
      ensures old(buffer) <= r + buffer
      ensures r + Unread() == old(Unread())
      ensures r == (r + buffer)[..TakeLength(r + buffer, n)]
      ensures |r + buffer| >= n || clock - old(clock) >= timeout
      ensures |old(buffer)| >= n ==> r == old(buffer)[..n] && clock == old(clock)
      ensures old(clock) <= clock && WaitedFor(FewerThan(n), old(buffer), old(arrivals), timeout, clock - old(clock))
      ensures old(clock) <= clock && r + buffer == BufferAfterPolls(old(buffer), old(arrivals), clock - old(clock))
    {
      ghost var b0, a0 := buffer, arrivals;
      var polls := UpdateWhile(FewerThan(n));
      assert WaitedFor(FewerThan(n), b0, a0, timeout, polls);
      r := TakeFront(Min(|buffer|, n));
    }

    /** Remove the first `amount` bytes of the buffer and return them. */
    method TakeFront(amount: nat) returns (r: seq<byte>)
      requires amount <= |buffer|
      modifies this`buffer
      ensures r == old(buffer)[..amount] && r + buffer == old(buffer)
      ensures r + Unread() == old(Unread())
    {
      CutKeepsBytes(buffer, amount, Flatten(arrivals));
      r := buffer[..amount];
      buffer := buffer[amount..];
    }

    method Peek(n: nat) returns (r: seq<byte>)
      modifies this`buffer, this`arrivals, this`clock
      ensures old(buffer) <= buffer && Unread() == old(Unread())
      ensures r == buffer[..TakeLength(buffer, n)]
      ensures |buffer| >= n || clock - old(clock) >= timeout
      ensures |old(buffer)| >= n ==> r == old(buffer)[..n] && buffer == old(buffer)
      ensures old(clock) <= clock && WaitedFor(FewerThan(n), old(buffer), old(arrivals), timeout, clock - old(clock))
      ensures old(clock) <= clock && buffer == BufferAfterPolls(old(buffer), old(arrivals), clock - old(clock))
    {
      var _ := UpdateWhile(FewerThan(n));
      var amount := Min(|buffer|, n);
      r := buffer[..amount];
    }

    method ReadUntil(expected: seq<byte>) returns (r: seq<byte>)
      modifies this`buffer, this`arrivals, this`clock
      ensures old(buffer) <= r + buffer
      ensures r + Unread() == old(Unread())
      ensures r == (r + buffer)[..UntilLength(r + buffer, expected)]
      ensures !Contains(r + buffer, expected) ==> buffer == []
      ensures Contains(r + buffer, expected) || clock - old(clock) >= timeout
      ensures old(clock) <= clock && WaitedFor(PatternAbsent(expected, None), old(buffer), old(arrivals), timeout, clock - old(clock))
      ensures old(clock) <= clock && r + buffer == BufferAfterPolls(old(buffer), old(arrivals), clock - old(clock))
    {
      ghost var b0, a0 := buffer, arrivals;
      var polls := UpdateWhile(PatternAbsent(expected, None));
      assert WaitedFor(PatternAbsent(expected, None), b0, a0, timeout, polls);
      ghost var w := buffer;
      CutKeepsBytes(w, UntilLength(w, expected), Flatten(arrivals));
      var parts := SplitUntil(buffer, expected);
      r, buffer := parts.0, parts.1;
    }

    /** `peek_until` as written: its no-match branch indexes a single byte. */
    method PeekUntil(expected: seq<byte>, maxLength: Option<nat>) returns (r: PeekUntilOutcome)
      modifies this`buffer, this`arrivals, this`clock
      ensures old(buffer) <= buffer && Unread() == old(Unread())
      ensures r == PeekUntilAsWritten(buffer, expected, maxLength)
      ensures !Waiting(PatternAbsent(expected, maxLength), buffer) || clock - old(clock) >= timeout
      ensures old(clock) <= clock && WaitedFor(PatternAbsent(expected, maxLength), old(buffer), old(arrivals), timeout, clock - old(clock))
      ensures old(clock) <= clock && buffer == BufferAfterPolls(old(buffer), old(arrivals), clock - old(clock))
    {
      var _ := UpdateWhile(PatternAbsent(expected, maxLength));
      r := PeekUntilAsWritten(buffer, expected, maxLength);
    }

    /** The `length` property: drain every pending arrival, then report the
        buffer size. */
    method Length() returns (n: nat)
      modifies this`buffer, this`arrivals
      ensures buffer == old(Unread()) && arrivals == []
      ensures n == |buffer|
    {
      while true
        invariant Unread() == old(Unread())
        decreases |arrivals|
      {
        ghost var pending := arrivals;
        var received := UpdateBuffer();
        if !received {
          break;
        }
        assert Flatten(pending) == pending[0] + Flatten(pending[1..]);
      }
      n := |buffer|;
    }
  }
}
