/** The Bluetooth Low Energy transport (`ThreespaceBLEComClass`): a receive
    buffer that notification callbacks append to, GATT writes chunked to the
    negotiated payload size, and the class-level table of discovered devices.

    The environment is explicit. `notifications` queues the payloads whose
    callbacks the event loop has yet to run; `clock` is abstract time. An
    await that gets a notification takes one tick. One that gets none times
    out at its deadline in the corrected await (`AwaitRead`) and never
    completes in the await as written (`AwaitReadAsWritten`). */
module BleTransport {
  import opened Wrappers
  import opened ByteStream

  const DefaultTimeout: nat := 2
  /** The payload size assumed before a connection negotiates its MTU. */
  const DefaultMaxPacketSize: nat := 20
  /** Opcode and attribute handle take 3 bytes of every ATT packet. */
  const AttHeaderSize: nat := 3
  /** The smallest ATT_MTU an LE link may use (Bluetooth Core Specification,
      Vol 3, Part F, section 3.2.8). */
  const MinAttMtu: nat := 23

  /** `data` cut into consecutive pieces of `size` bytes, the last one
      possibly shorter: the payloads `write` hands to `write_gatt_char`. */
  function Chunks(data: seq<byte>, size: nat): (r: seq<seq<byte>>)
    requires size >= 1
    ensures r == [] <==> data == []
    decreases |data|
  {
    if |data| == 0 then []
    else
      var end := Min(|data|, size);
      [data[..end]] + Chunks(data[end..], size)
  }

  /** The chunks put back together are the data: nothing lost, duplicated or
      reordered. */
  lemma {:induction false} ChunksConcatenate(data: seq<byte>, size: nat)
    requires size >= 1
    ensures Flatten(Chunks(data, size)) == data
    decreases |data|
  {
    if |data| > 0 {
      var end := Min(|data|, size);
      var cs := Chunks(data, size);
      ChunksConcatenate(data[end..], size);
      assert cs[0] == data[..end] && cs[1..] == Chunks(data[end..], size);
      assert Flatten(cs) == data[..end] + data[end..];
      assert data[..end] + data[end..] == data;
    }
  }

  /** The chunks of the data from `start` on: the piece up to the next
      packet boundary, then the chunks of the rest. */
  lemma ChunksFrom(data: seq<byte>, start: nat, size: nat)
    requires size >= 1 && start < |data|
    ensures var end := Min(|data|, start + size);
      Chunks(data[start..], size) == [data[start..end]] + Chunks(data[end..], size)
  {
    var end := Min(|data|, start + size);
    assert data[start..][..end - start] == data[start..end];
    assert data[start..][end - start..] == data[end..];
  }

  /** Every chunk is non-empty and at most `size` long; all but the last are
      exactly `size` long; empty data gives no chunk. */
  lemma {:induction false} ChunksBounded(data: seq<byte>, size: nat)
    requires size >= 1
    ensures var cs := Chunks(data, size);
      && (cs == [] <==> data == [])
      && (forall i :: 0 <= i < |cs| ==> 1 <= |cs[i]| <= size)
      && (forall i :: 0 <= i < |cs| - 1 ==> |cs[i]| == size)
    decreases |data|
  {
    if |data| > 0 {
      var end := Min(|data|, size);
      ChunksBounded(data[end..], size);
      var cs := Chunks(data, size);
      assert cs[1..] == Chunks(data[end..], size);
      forall i | 1 <= i < |cs|
        ensures cs[i] == Chunks(data[end..], size)[i - 1]
      {
      }
    }
  }

  /** How many chunks `write` issues: the data length divided by `size`,
      rounded up. */
  lemma {:induction false} ChunksCount(data: seq<byte>, size: nat)
    requires size >= 1
    ensures |Chunks(data, size)| * size >= |data|
    ensures |Chunks(data, size)| * size < |data| + size
    decreases |data|
  {
    if |data| > 0 {
      var end := Min(|data|, size);
      ChunksCount(data[end..], size);
      assert |Chunks(data, size)| == 1 + |Chunks(data[end..], size)|;
    }
  }

  /** The buffer once the first `k` queued notifications have been delivered. */
  function Delivered(b: seq<byte>, q: seq<seq<byte>>, k: nat): seq<byte>
    requires k <= |q|
  {
    b + Flatten(q[..k])
  }

  /** An await loop that started from buffer `b` with notifications `q`
      queued and ended with `buffer` and queue `rest`: it took the first `k`
      notifications in order, at most `timeout` of them, each while the
      condition still held, and it stopped with the condition false, the
      queue empty or `timeout` notifications taken. */
  ghost predicate TookQueued(cond: WaitCondition, b: seq<byte>, q: seq<seq<byte>>, timeout: nat,
                             buffer: seq<byte>, rest: seq<seq<byte>>)
  {
    |rest| <= |q| &&
    var k := |q| - |rest|;
    && k <= timeout
    && (forall i :: 0 <= i < |rest| ==> rest[i] == q[k + i])
    && buffer == Delivered(b, q, k)
    && (forall j :: 0 <= j < k ==> Waiting(cond, Delivered(b, q, j)))
    && (Waiting(cond, buffer) ==> k == timeout || rest == [])
  }

  /** What the constructor is given. */
  datatype BleTarget =
    | Client(address: string)          // a BleakClient: named by its address
    | AddressString(address: string)   // an address string: named by the address
    | Device(device: BleDevice)        // a BLEDevice: named by its advertised local name

  datatype BleDevice = BleDevice(address: string, name: Option<string>)

  class BleComm {
    const name: Option<string>
    /** `client.is_connected`. */
    var connected: bool
    var buffer: seq<byte>
    var maxPacketSize: nat
    var dataReadEvent: bool
    var timeout: nat
    var clock: nat
    var notifications: seq<seq<byte>>
    /** The payloads of `write_gatt_char` calls, in order. */
    var written: seq<seq<byte>>

    ghost predicate Valid()
      reads this
    {
      maxPacketSize >= 1
    }

    /** Everything received or still queued for delivery, in order. */
    ghost function Unread(): seq<byte>
      reads this
    {
      buffer + Flatten(notifications)
    }

    constructor (target: BleTarget, incoming: seq<seq<byte>>)
      ensures Valid()
      ensures name == match target
        case Client(a) => Some(a)
        case AddressString(a) => Some(a)
        case Device(d) => d.name
      ensures !connected && buffer == [] && maxPacketSize == DefaultMaxPacketSize
      ensures timeout == DefaultTimeout && notifications == incoming && written == [] && clock == 0
    {
      name := match target
        case Client(a) => Some(a)
        case AddressString(a) => Some(a)
        case Device(d) => d.name;
      connected, buffer, maxPacketSize := false, [], DefaultMaxPacketSize;
      dataReadEvent, timeout, clock := false, DefaultTimeout, 0;
      notifications, written := incoming, [];
    }

    function CheckOpen(): bool
      reads this
    {
      connected
    }

    /** Connect and subscribe to notifications, then size packets to the
        negotiated `mtu`. `connectSucceeds` is whether connecting works; when
        it does not, the error propagates (`raised`) and nothing changes. */
    method Open(connectSucceeds: bool, mtu: nat) returns (raised: bool)
      requires Valid() && mtu >= MinAttMtu
      modifies this`connected, this`maxPacketSize
      ensures Valid()
      ensures old(connected) ==> !raised && connected && maxPacketSize == old(maxPacketSize)
      ensures !old(connected) ==> raised == !connectSucceeds && connected == connectSucceeds
      ensures !old(connected) ==> maxPacketSize == if raised then old(maxPacketSize) else mtu - AttHeaderSize
    {
      if connected {
        return false;
      }
      if !connectSucceeds {
        return true;
      }
      connected := true;
      maxPacketSize := mtu - AttHeaderSize;
      return false;
    }

    method Close()
      modifies this`connected, this`buffer
      ensures !CheckOpen()
      ensures buffer == if old(connected) then [] else old(buffer)
    {
      if !connected {
        return;
      }
      connected := false;
      buffer := [];
    }

    /** `__on_data_received`. */
    method OnDataReceived(data: seq<byte>)
      modifies this`buffer, this`dataReadEvent
      ensures buffer == old(buffer) + data && dataReadEvent
    {
      buffer := buffer + data;
      dataReadEvent := true;
    }

    method Write(data: seq<byte>)
      requires Valid()
      modifies this`written
      ensures written == old(written) + Chunks(data, maxPacketSize)
    {
      var startIndex := 0;
      while startIndex < |data|
        invariant startIndex <= |data|
        invariant old(written) + Chunks(data, maxPacketSize) == written + Chunks(data[startIndex..], maxPacketSize)
      {
        var endIndex := Min(|data|, startIndex + maxPacketSize);
        ChunksFrom(data, startIndex, maxPacketSize);
        assert (written + [data[startIndex..endIndex]]) + Chunks(data[endIndex..], maxPacketSize)
          == written + Chunks(data[startIndex..], maxPacketSize);
        written := written + [data[startIndex..endIndex]];
        startIndex := endIndex;
      }
    }

    /** `__await_read` with a deadline that fires: clear the event and wait
        for a notification until `deadline`. */
    method AwaitRead(deadline: nat) returns (got: bool)
      modifies this`buffer, this`notifications, this`clock, this`dataReadEvent
      ensures got == (old(notifications) != [])
      ensures got ==> buffer == old(buffer) + old(notifications)[0] && notifications == old(notifications)[1..]
      ensures got ==> clock == old(clock) + 1
      ensures !got ==> buffer == old(buffer) && notifications == old(notifications)
      ensures !got ==> clock == Max(old(clock), deadline)
      ensures dataReadEvent == got
    {
      dataReadEvent := false;
      if notifications == [] {
        clock := Max(clock, deadline);
        return false;
      }
      var data := notifications[0];
      notifications := notifications[1..];
      OnDataReceived(data);
      clock := clock + 1;
      return true;
    }

    /** `__await_read` as it behaves: `timeout_at` is handed an epoch time
        (`time.time()`), but measures its deadline on the event loop's
        monotonic clock, so the deadline lies decades ahead and never fires.
        With no notification queued the await does not complete; `got` false
        means it is still pending, with nothing changed. */
    method AwaitReadAsWritten() returns (got: bool)
      modifies this`buffer, this`notifications, this`clock, this`dataReadEvent
      ensures got == (old(notifications) != [])
      ensures got ==> buffer == old(buffer) + old(notifications)[0] && notifications == old(notifications)[1..]
      ensures got ==> clock == old(clock) + 1
      ensures !got ==> buffer == old(buffer) && notifications == [] && clock == old(clock)
      ensures dataReadEvent == got
    {
      dataReadEvent := false;
      if notifications == [] {
        return false;
      }
      var data := notifications[0];
      notifications := notifications[1..];
      OnDataReceived(data);
      clock := clock + 1;
      return true;
    }

    /** The await loop over `AwaitReadAsWritten`. `blocked` means an await
        never completed: the call hangs with the condition unmet and time
        left, and a device that stays silent is never given up on. */
    method AwaitWhileAsWritten(cond: WaitCondition) returns (blocked: bool)
      modifies this`buffer, this`notifications, this`clock, this`dataReadEvent
      ensures old(buffer) <= buffer && Unread() == old(Unread())
      ensures old(clock) <= clock <= old(clock) + timeout
      ensures blocked ==> Waiting(cond, buffer) && clock - old(clock) < timeout && notifications == []
      ensures !blocked ==> !Waiting(cond, buffer) || clock - old(clock) >= timeout
      ensures old(notifications) == [] && Waiting(cond, old(buffer)) && timeout > 0 ==> blocked
      ensures TookQueued(cond, old(buffer), old(notifications), timeout, buffer, notifications)
      ensures clock == old(clock) + (|old(notifications)| - |notifications|)
      ensures blocked <==> Waiting(cond, buffer) && clock - old(clock) < timeout
    {
      var start := clock;
      ghost var b0, q0, k := buffer, notifications, 0;
      blocked := false;
      while Waiting(cond, buffer) && clock - start < timeout
        invariant start <= clock <= start + timeout
        invariant old(buffer) <= buffer && Unread() == old(Unread())
        invariant clock == start ==> buffer == old(buffer) && notifications == old(notifications)
        invariant old(notifications) == [] ==> clock == start
        invariant k <= |q0| && notifications == q0[k..] && buffer == Delivered(b0, q0, k)
        invariant clock == start + k
        invariant forall j :: 0 <= j < k ==> Waiting(cond, Delivered(b0, q0, j))
        decreases start + timeout - clock
      {
        ghost var pending := notifications;
        var got := AwaitReadAsWritten();
        if !got {
          return true;
        }
        assert Flatten(pending) == pending[0] + Flatten(pending[1..]);
        FlattenPrefixStep(q0, k);
        assert q0[k..][1..] == q0[k + 1..];
        k := k + 1;
      }
    }

    /** The loop shared by `__await_num_bytes` and `__await_pattern`: await
        notifications while `cond` holds and less than `timeout` has elapsed.
        This is the corrected await, whose deadline does fire. */
    method AwaitWhile(cond: WaitCondition)
      modifies this`buffer, this`notifications, this`clock, this`dataReadEvent
      ensures old(buffer) <= buffer && Unread() == old(Unread())
      ensures old(clock) <= clock <= old(clock) + timeout
      ensures !Waiting(cond, buffer) || clock - old(clock) >= timeout
      ensures !Waiting(cond, old(buffer)) || timeout == 0 ==> buffer == old(buffer) && clock == old(clock)
      ensures TookQueued(cond, old(buffer), old(notifications), timeout, buffer, notifications)
    {
      var start := clock;
      ghost var b0, q0, k := buffer, notifications, 0;
      while Waiting(cond, buffer) && clock - start < timeout
        invariant start <= clock <= start + timeout
        invariant old(buffer) <= buffer && Unread() == old(Unread())
        invariant !Waiting(cond, old(buffer)) || timeout == 0 ==> buffer == old(buffer) && clock == start
        invariant k <= |q0| && notifications == q0[k..] && buffer == Delivered(b0, q0, k)
        invariant clock == start + k || (notifications == [] && clock == start + timeout)
        invariant k <= timeout
        invariant forall j :: 0 <= j < k ==> Waiting(cond, Delivered(b0, q0, j))
        decreases start + timeout - clock
      {
        ghost var pending := notifications;
        var got := AwaitRead(start + timeout);
        assert pending != [] ==> Flatten(pending) == pending[0] + Flatten(pending[1..]);
        if got {
          FlattenPrefixStep(q0, k);
          assert q0[k..][1..] == q0[k + 1..];
          k := k + 1;
        }
      }
    }

    method AwaitNumBytes(n: nat)
      modifies this`buffer, this`notifications, this`clock, this`dataReadEvent
      ensures old(buffer) <= buffer && Unread() == old(Unread())
      ensures old(clock) <= clock <= old(clock) + timeout
      ensures |buffer| >= n || clock - old(clock) >= timeout
      ensures |old(buffer)| >= n || timeout == 0 ==> buffer == old(buffer) && clock == old(clock)
      ensures TookQueued(FewerThan(n), old(buffer), old(notifications), timeout, buffer, notifications)
    {
      AwaitWhile(FewerThan(n));
    }

    method AwaitPattern(pattern: seq<byte>, maxLength: Option<nat>) returns (found: bool)
      modifies this`buffer, this`notifications, this`clock, this`dataReadEvent
      ensures old(buffer) <= buffer && Unread() == old(Unread())
      ensures old(clock) <= clock <= old(clock) + timeout
      ensures found == Contains(buffer, pattern)
      ensures found || (maxLength.Some? && |buffer| >= maxLength.value) || clock - old(clock) >= timeout
      ensures TookQueued(PatternAbsent(pattern, maxLength), old(buffer), old(notifications), timeout, buffer, notifications)
    {
      AwaitWhile(PatternAbsent(pattern, maxLength));
      found := Contains(buffer, pattern);
    }

    method Read(n: nat) returns (r: seq<byte>)
      modifies this`buffer, this`notifications, this`clock, this`dataReadEvent
      ensures old(buffer) <= r + buffer
      ensures r + Unread() == old(Unread())
      ensures r == (r + buffer)[..TakeLength(r + buffer, n)]
      ensures |r + buffer| >= n || clock - old(clock) >= timeout
      ensures |old(buffer)| >= n ==> r == old(buffer)[..n] && clock == old(clock)
      ensures TookQueued(FewerThan(n), old(buffer), old(notifications), timeout, r + buffer, notifications)
    {
      AwaitNumBytes(n);
      var count := Min(n, |buffer|);
      CutKeepsBytes(buffer, count, Flatten(notifications));
      r := buffer[..count];
      buffer := buffer[count..];
    }

    method Peek(n: nat) returns (r: seq<byte>)
      modifies this`buffer, this`notifications, this`clock, this`dataReadEvent
      ensures old(buffer) <= buffer && Unread() == old(Unread())
      ensures r == buffer[..TakeLength(buffer, n)]
      ensures |buffer| >= n || clock - old(clock) >= timeout
      ensures |old(buffer)| >= n ==> r == old(buffer)[..n] && buffer == old(buffer)
      ensures TookQueued(FewerThan(n), old(buffer), old(notifications), timeout, buffer, notifications)
    {
      AwaitNumBytes(n);
      var count := Min(n, |buffer|);
      r := buffer[..count];
    }

    method ReadUntil(expected: seq<byte>) returns (r: seq<byte>)
      modifies this`buffer, this`notifications, this`clock, this`dataReadEvent
      ensures old(buffer) <= r + buffer
      ensures r + Unread() == old(Unread())
      ensures r == (r + buffer)[..UntilLength(r + buffer, expected)]
      ensures !Contains(r + buffer, expected) ==> buffer == []
      ensures Contains(r + buffer, expected) || clock - old(clock) >= timeout
      ensures TookQueued(PatternAbsent(expected, None), old(buffer), old(notifications), timeout, r + buffer, notifications)
    {
      var found := AwaitPattern(expected, None);
      ghost var w := buffer;
      CutKeepsBytes(w, UntilLength(w, expected), Flatten(notifications));
      var parts := SplitUntil(buffer, expected);
      r, buffer := parts.0, parts.1;
    }

    method PeekUntil(expected: seq<byte>, maxLength: Option<nat>) returns (r: seq<byte>)
      modifies this`buffer, this`notifications, this`clock, this`dataReadEvent
      ensures old(buffer) <= buffer && Unread() == old(Unread())
      ensures r == buffer[..PeekUntilLength(buffer, expected, maxLength)]
      ensures !Waiting(PatternAbsent(expected, maxLength), buffer) || clock - old(clock) >= timeout
      ensures TookQueued(PatternAbsent(expected, maxLength), old(buffer), old(notifications), timeout, buffer, notifications)
    {
      var _ := AwaitPattern(expected, maxLength);
      var length := match IndexOf(buffer, expected) case Some(i) => i + |expected| case None => |buffer|;
      if maxLength.Some? && length > maxLength.value {
        length := maxLength.value;
      }
      r := buffer[..length];
    }

    /** The `length` property: one event-loop turn runs every queued
        notification callback, then the buffer size is reported. */
    method Length() returns (n: nat)
      modifies this`buffer, this`notifications, this`dataReadEvent
      ensures buffer == old(Unread()) && notifications == []
      ensures n == |buffer|
    {
      while notifications != []
        invariant Unread() == old(Unread())
        decreases |notifications|
      {
        var data := notifications[0];
        assert Flatten(notifications) == data + Flatten(notifications[1..]);
        notifications := notifications[1..];
        OnDataReceived(data);
      }
      n := |buffer|;
    }
  }

  /** A device that sends nothing: awaiting one byte as written never
      returns, whatever the timeout. */
  method SilentDeviceReadHangs(com: BleComm) returns (blocked: bool)
    requires com.notifications == [] && com.buffer == [] && com.timeout > 0
    modifies com
    ensures blocked
  {
    blocked := com.AwaitWhileAsWritten(FewerThan(1));
  }

  /** The same device under the corrected await: `read(1)` gives up at the
      timeout with nothing read. */
  method SilentDeviceReadTimesOut() returns (r: seq<byte>)
    ensures r == []
  {
    var com := new BleComm(AddressString("C8:2E:18:00:00:01"), []);
    assert com.Unread() == [];
    r := com.Read(1);
  }
}
