# Threespace sensor communication and axis orders, modelled in Dafny

This project models the sequential core of the Yost Labs Threespace Python
API. The model covers four parts.

- **The socket-family transport** (`ThreespaceSocketComClass`), module `SocketTransport`
  in `socket.dfy`.
  - A receive buffer is filled at the tail by non-blocking `recv` polls. A wait loop
    bounded by the read timeout drives the polling.
  - `read`, `peek`, `read_until` and `peek_until` consume or copy from the head.
  - Open and close state is kept alongside.
- **The BLE transport** (`ThreespaceBLEComClass`), module `BleTransport` in `ble.dfy`.
  - It has the same four buffer operations, fed by a notification callback.
  - `write` cuts data into chunks of at most `max_packet_size` bytes.
  - Awaits run until the buffer satisfies a condition or, in the corrected form, the
    timeout expires; as written, a device that stays silent makes them wait forever.
- **The BLE discovery table**, module `BleDiscovery` in `ble_discovery.dfy`. This is the
  class-level `discovered_devices` dictionary, keyed by address. Continuous mode updates
  it with time-based expiry. One-shot mode clears it and scans.
- **Axis orders**, module `Axes` in `axes.dfy`.
  - `AxisOrder` parses xyz or compass notation into an axis permutation plus ±1
    multipliers.
  - It computes handedness, prints back in either notation, and compares orders.
  - `swap_vector_axes`, `swap_quaternion_axes`, `swap_to` and `axis_to_unit_vector`
    are modelled too.
- **Bluetooth Classic**, module `BluetoothClassic` in `bluetooth.dfy`.
  - `decode_class_of_device` follows the Class of Device field layout of the Bluetooth
    Assigned Numbers document.
  - The `Scanner` flag machine (`enabled`, `done`, `updated`, `nearby`) is modelled with
    its background thread as two explicit environment steps.
  - So are the default filter, the com class name default and the candidate list
    `auto_detect` yields.

The shared buffer logic lives in `ByteStream` (`stream.dfy`). It covers the following:

- Python's `in` and `index` on byte strings.
- The slice lengths used by reads and peeks.
- The wait conditions.
- Flattening a list of received chunks.

`Wrappers` (`wrappers.dfy`) holds `Option`, `Result`, `Min` and `Max`.

Time is an abstract tick counter.

- In the socket transport each poll of `__update_while` takes one tick.
- In the BLE transport an await that receives a notification takes one tick. In the
  corrected await, one that receives nothing runs to its deadline; as written it never
  returns (see Findings).
- The byte streams the peer sends are given up front as a sequence of chunks:
  - `arrivals` holds what successive `recv` calls return. An empty trace means
    `BlockingIOError`.
  - `notifications` holds the callbacks queued on the BLE event loop.
  - `heard` holds the advertisements each turn of the scanner's event loop delivers.

Python exceptions that the code raises become `Result` failures.

- `KeyError` and `IndexError` come from the axis parser.
- `IndexError` comes from the socket `peek_until` and from short vectors.
- `ValueError` comes from `list.index`.

## Model

| member | source | states |
|---|---|---|
| ByteStream.ContainsIff | src/yostlabs/communication/socket.py:71-72 | `p in buffer` holds exactly when `p` occurs at some index (the empty pattern occurs everywhere) |
| ByteStream.FirstMatchFrom | src/yostlabs/communication/socket.py:73 | the left-to-right search finds an occurrence at or after its start, and no earlier one is skipped |
| ByteStream.IndexOf | src/yostlabs/communication/socket.py:73 | `buffer.index(p)` exists exactly when `p in buffer`, and is the first index where `p` occurs |
| ByteStream.UntilLength | src/yostlabs/communication/socket.py:72-78 | `read_until` takes everything through the end of the first match when there is one, otherwise the whole buffer |
| ByteStream.SplitUntil | src/yostlabs/communication/socket.py:72-79 | what `read_until` returns followed by what it leaves is the buffer; with no match nothing is left |
| ByteStream.PeekUntilLength | src/yostlabs/communication/ble.py:139-147 | a correct `peek_until` takes through the first match, or the whole buffer, capped at `max_length`; it never passes either bound |
| ByteStream.WaitingShrinks | src/yostlabs/communication/ble.py:101 | a wait condition (`len < n`, or pattern absent and `len < max`) that holds of a buffer holds of each of its prefixes, so a loop that has stopped waiting would not resume as bytes arrive |
| ByteStream.FlattenAppend | src/yostlabs/communication/socket.py:105 | the bytes of two chunk lists are the bytes of each, in order |
| ByteStream.FlattenSplit | src/yostlabs/communication/socket.py:105 | splitting the chunks received splits their bytes at the same place |
| ByteStream.FlattenPrefixStep | src/yostlabs/communication/socket.py:105 | one more chunk received appends exactly that chunk's bytes |
| SocketTransport.PeekUntilAsWritten | src/yostlabs/communication/socket.py:83-93 | `peek_until` once its wait is over: with a match, the prefix through the match capped at `max_length`; without one, never a prefix but the single byte `buffer[min(len, max)]`, or IndexError when that index is past the end |
| SocketTransport.PeekUntilNoMatchDiverges | src/yostlabs/communication/socket.py:88-92 | without a match the as-written result is never the prefix a correct peek returns, and is IndexError whenever `max_length` is None or at least the buffer length |
| SocketTransport.PeekUntilNoMatchCounterexample | src/yostlabs/communication/socket.py:88-92 | peeking "ABC" until a newline raises IndexError |
| SocketTransport.PollStep | src/yostlabs/communication/socket.py:102-109 | one more poll moves the next pending chunk, if any, to the tail of the buffer |
| SocketTransport.PollsKeepBytes | src/yostlabs/communication/socket.py:105 | after any number of polls, buffer followed by pending chunks is the starting buffer followed by all arrivals |
| SocketTransport.BufferAfterPollsGrows | src/yostlabs/communication/socket.py:105 | polling only appends to the buffer |
| SocketTransport.EarlierPollsWaited | src/yostlabs/communication/socket.py:97-98 | if the condition held before the last poll, it held before every earlier poll |
| SocketTransport.SocketComm.constructor | src/yostlabs/communication/socket.py:13-20 | a new com class is not open, has an empty buffer and a timeout of 2 |
| SocketTransport.SocketComm.Open | src/yostlabs/communication/socket.py:30-45 | already open: True and nothing changes; otherwise it returns whether connect succeeded and is open exactly then, and a failed connect (or a closed socket) leaves the socket closed |
| SocketTransport.SocketComm.Close | src/yostlabs/communication/socket.py:47-53 | afterwards `check_open` is False; the socket is closed only if it was open |
| SocketTransport.SocketComm.Write | src/yostlabs/communication/socket.py:55-56 | what is sent is the prefix of the data that `socket.send` accepts, after what was sent before; the count `send` returns is dropped, so when it accepts fewer bytes than given the rest is never sent |
| SocketTransport.SocketComm.UpdateBuffer | src/yostlabs/communication/socket.py:102-109 | a poll that receives appends the chunk at the tail and reports True; a poll that would block changes nothing and reports False |
| SocketTransport.SocketComm.Arrive | src/yostlabs/communication/socket.py:105 | data the peer sends later is queued behind what is still pending: the unread bytes grow by exactly that chunk |
| SocketTransport.SocketComm.UpdateWhile | src/yostlabs/communication/socket.py:95-100 | polls at least once exactly when the condition starts true; the buffer is the start buffer plus the chunks of those polls; it ends when the condition is false or the timeout has elapsed; nothing is lost |
| SocketTransport.SocketComm.Read | src/yostlabs/communication/socket.py:58-63 | returns the first `min(n, len)` bytes of the buffer after the wait and removes them; result followed by what is left is everything received, in order; with `n` bytes already buffered it returns them at once; the wait took at most `max(timeout, 1)` polls, polled only while fewer than `n` bytes were buffered, and stopped at the first poll that brought `n` or at the timeout |
| SocketTransport.SocketComm.Peek | src/yostlabs/communication/socket.py:65-68 | returns the same prefix `read(n)` would and leaves the buffer as the wait left it; the wait is bounded and stops early exactly as for `read` |
| SocketTransport.SocketComm.ReadUntil | src/yostlabs/communication/socket.py:70-79 | returns through the end of the first match and keeps the rest, or returns and clears the whole buffer when there is no match; a missing match means the timeout elapsed; the wait took at most `max(timeout, 1)` polls and stopped at the first poll that brought the pattern |
| SocketTransport.SocketComm.PeekUntil | src/yostlabs/communication/socket.py:81-93 | does not consume; the result is the as-written outcome on the buffer the wait left; the wait took at most `max(timeout, 1)` polls and stopped at the first poll that brought the pattern or `max_length` bytes |
| SocketTransport.SocketComm.Length | src/yostlabs/communication/socket.py:111-114 | drains every pending arrival into the buffer and returns its length |
| BleTransport.Chunks | src/yostlabs/communication/ble.py:83-88 | the data splits into no chunks exactly when it is empty |
| BleTransport.ChunksConcatenate | src/yostlabs/communication/ble.py:83-88 | the chunks `write` sends, put back together, are the data |
| BleTransport.ChunksBounded | src/yostlabs/communication/ble.py:85-86 | every chunk is non-empty and at most `max_packet_size` long, and all but the last are exactly that long |
| BleTransport.ChunksCount | src/yostlabs/communication/ble.py:84-88 | the number of chunks is the data length divided by `max_packet_size`, rounded up; empty data sends nothing |
| BleTransport.BleComm.constructor | src/yostlabs/communication/ble.py:29-49 | the name is the client's address or the device's local name; not connected, empty buffer, packet size 20, timeout 2 |
| BleTransport.BleComm.Open | src/yostlabs/communication/ble.py:51-58 | no-op when connected; otherwise connected exactly when connect succeeds, and the packet size becomes `mtu - 3` |
| BleTransport.BleComm.Close | src/yostlabs/communication/ble.py:60-63 | afterwards not connected; the buffer is emptied only if it was connected |
| BleTransport.BleComm.OnDataReceived | src/yostlabs/communication/ble.py:79-81 | the notification's data goes to the tail of the buffer and the read event is set |
| BleTransport.BleComm.Write | src/yostlabs/communication/ble.py:83-88 | the chunks of the data at the packet size are written in order after those written before |
| BleTransport.BleComm.AwaitRead | src/yostlabs/communication/ble.py:90-97 | the corrected `__await_read`, whose deadline fires: True exactly when a notification is queued, in which case its data is appended; otherwise the clock reaches the deadline and nothing changes |
| BleTransport.BleComm.AwaitReadAsWritten | src/yostlabs/communication/ble.py:90-97 | `__await_read` as it behaves with an epoch deadline on the loop clock: True exactly when a notification is queued, in which case its data is appended; otherwise the await is still pending with nothing changed |
| BleTransport.BleComm.AwaitWhileAsWritten | src/yostlabs/communication/ble.py:118-122 | the await loop as written: takes the queued notifications in order, each while the condition still held, appending their data and ticking once per notification; if it returns, the condition is false or `timeout` notifications were taken; it hangs exactly when the queue runs out while the condition holds and fewer than `timeout` were taken |
| BleTransport.SilentDeviceReadHangs | src/yostlabs/communication/ble.py:90-102 | on any connection with nothing queued, nothing buffered and a positive timeout, the written await for one byte hangs |
| BleTransport.SilentDeviceReadTimesOut | src/yostlabs/communication/ble.py:99-109 | on a new connection that receives nothing, the corrected `read(1)` returns no bytes |
| BleTransport.BleComm.AwaitWhile | src/yostlabs/communication/ble.py:118-122 | the corrected await loop: takes queued notifications in order, each while the condition still held, appending exactly their data; stops only when the condition is false, the queue is empty or `timeout` were taken; never outlasts the timeout; does nothing when the condition is already false |
| BleTransport.BleComm.AwaitNumBytes | src/yostlabs/communication/ble.py:99-102 | over the corrected await: takes notifications only while fewer than `n` bytes are buffered; ends with at least `n` bytes, with the queue empty, or with the timeout elapsed; returns at once when `n` bytes are there |
| BleTransport.BleComm.AwaitPattern | src/yostlabs/communication/ble.py:118-123 | over the corrected await: returns whether the pattern is in the buffer; takes notifications only while the pattern is absent and `max_length` is not reached, and stops waiting on a match, on reaching `max_length`, on an empty queue or at the timeout |
| BleTransport.BleComm.Read | src/yostlabs/communication/ble.py:104-109 | returns the first `min(n, len)` bytes after the wait and removes them; nothing lost or duplicated; the wait took queued notifications only while fewer than `n` bytes were buffered and stopped at the first that brought `n`, at an empty queue or at the timeout |
| BleTransport.BleComm.Peek | src/yostlabs/communication/ble.py:111-115 | returns the prefix `read(n)` would return, without consuming; the wait takes notifications and stops exactly as for `read` |
| BleTransport.BleComm.ReadUntil | src/yostlabs/communication/ble.py:125-135 | returns through the end of the first match, or the whole buffer and clears it when there is no match; the wait took notifications only while the pattern was absent and stopped at the first that brought it, at an empty queue or at the timeout |
| BleTransport.BleComm.PeekUntil | src/yostlabs/communication/ble.py:137-147 | returns the prefix through the first match, or the whole buffer, capped at `max_length`, without consuming; the wait stops at the first notification that brings the pattern or `max_length` bytes, at an empty queue or at the timeout |
| BleTransport.BleComm.Length | src/yostlabs/communication/ble.py:149-152 | runs every queued callback, then returns the buffer length |
| BleDiscovery.RecordedEntries | src/yostlabs/communication/ble.py:188-189 | after the callbacks the table holds the old addresses and the heard ones; heard ones are stamped with the current time; others are unchanged |
| BleDiscovery.Pruned | src/yostlabs/communication/ble.py:216-222 | an address stays exactly when its entry is not expired (`now - last_found > expiration`), and kept entries are unchanged |
| BleDiscovery.PrunedIdempotent | src/yostlabs/communication/ble.py:216-222 | pruning again at the same time removes nothing more |
| BleDiscovery.HeardDevicesSurvive | src/yostlabs/communication/ble.py:212-222 | a device heard in the turn before the expiry pass survives it; an expired device not heard again is removed |
| BleDiscovery.AfterTurnsKeys | src/yostlabs/communication/ble.py:231-232 | after `n` event-loop turns the table holds the old addresses plus those heard in the turns |
| BleDiscovery.AfterTurnsStamps | src/yostlabs/communication/ble.py:231-232 | starting from an empty table, every entry is stamped with a time within the turns |
| BleDiscovery.OneShotForgetsEarlierDevices | src/yostlabs/communication/ble.py:226-232 | after a one-shot scan the table holds exactly the addresses heard during it, stamped within the scan |
| BleDiscovery.DeviceTable.constructor | src/yostlabs/communication/ble.py:173-179 | one-shot mode, timeout 5, find count 1, expiration 5, empty table |
| BleDiscovery.DeviceTable.DetectionCallback | src/yostlabs/communication/ble.py:187-189 | the entry under the device's address is (re)written with the current time; re-detection adds no entry |
| BleDiscovery.DeviceTable.SetScannerContinuous | src/yostlabs/communication/ble.py:191-204 | records the mode; the scanner runs exactly in continuous mode |
| BleDiscovery.DeviceTable.RunCallbacks | src/yostlabs/communication/ble.py:213-214 | one tick passes and the callbacks for the next batch of advertisements record it |
| BleDiscovery.DeviceTable.RemoveExpired | src/yostlabs/communication/ble.py:216-222 | removes exactly the expired entries, keeps the rest unchanged |
| BleDiscovery.DeviceTable.UpdateContinuous | src/yostlabs/communication/ble.py:212-222 | callbacks for one turn run, then expired entries are pruned at the new time |
| BleDiscovery.DeviceTable.Turn | src/yostlabs/communication/ble.py:231-232 | one loop turn of a one-shot scan advances the table to the next turn's state |
| BleDiscovery.DeviceTable.UpdateOneShot | src/yostlabs/communication/ble.py:224-233 | clears the table, records the turns' advertisements and stops the scanner; it keeps scanning on every turn before the last and stops at the first turn where the timeout is reached or the count of devices is reached; `None` or 0 means no limit |
| BleDiscovery.DeviceTable.UpdateNearbyDevices | src/yostlabs/communication/ble.py:206-235 | continuous mode prunes after one turn; one-shot mode rebuilds the table from a scan; returns the table |
| BleDiscovery.DeviceTable.DiscoveredNearbyDevices | src/yostlabs/communication/ble.py:237-242 | a copy with the same addresses and entries |
| Axes.PyIndex | packages/yostlabs-math/src/yostlabs/math/axes.py:91 | Python list indexing: defined exactly for `-n <= i < n`, negative indices counting from the end |
| Axes.Lower | packages/yostlabs-math/src/yostlabs/math/axes.py:41 | same length, each character lowered |
| Axes.Strip | packages/yostlabs-math/src/yostlabs/math/axes.py:41 | a slice of the input without leading or trailing whitespace, with only whitespace cut off |
| Axes.NormalisedUnchanged | packages/yostlabs-math/src/yostlabs/math/axes.py:41 | text without upper-case letters or outer whitespace is unchanged by lowering and stripping |
| Axes.ParseAxisString | packages/yostlabs-math/src/yostlabs/math/axes.py:46-65 | the loop computes the parse: the same order and multipliers, or the same error |
| Axes.RunKeepsShape | packages/yostlabs-math/src/yostlabs/math/axes.py:48-63 | a successful parse keeps three slots and multipliers that are ±1 |
| Axes.RunFailsWithoutValueError | packages/yostlabs-math/src/yostlabs/math/axes.py:53-63 | the parser fails only with KeyError or IndexError |
| Axes.RunAppend | packages/yostlabs-math/src/yostlabs/math/axes.py:53-63 | parsing `a + b` is parsing `a`, then `b` from where `a` left off |
| Axes.CompassRunClosedForm | packages/yostlabs-math/src/yostlabs/math/axes.py:59-63 | compass parsing from slot `k`: KeyError at the first non-compass letter, IndexError when the slots run out first, otherwise each letter sets its slot's axis and sign |
| Axes.CompassParse | packages/yostlabs-math/src/yostlabs/math/axes.py:51-63 | text without x, y or z parses in compass notation with that outcome |
| Axes.PermutationDistinct | packages/yostlabs-math/src/yostlabs/math/axes.py:22 | a permutation of 0..2 has distinct entries in range and holds every axis |
| Axes.MisplacedParity | packages/yostlabs-math/src/yostlabs/math/axes.py:70-71 | exactly two misplaced slots means an odd permutation |
| Axes.ComputeHandedness | packages/yostlabs-math/src/yostlabs/math/axes.py:68-74 | for the identity order, right-handed exactly when an odd number of multipliers is negative |
| Axes.HandednessIsParity | packages/yostlabs-math/src/yostlabs/math/axes.py:68-74 | right-handed exactly when the permutation is odd or an odd number of axes is negated, but not both |
| Axes.FromString | packages/yostlabs-math/src/yostlabs/math/axes.py:39-43 | a built object has three slots, ±1 multipliers and the handedness the rule computes; construction fails only with KeyError or IndexError |
| Axes.ParsedAxesShape | packages/yostlabs-math/src/yostlabs/math/axes.py:46-65 | a parse gives three slots with ±1 multipliers, and fails only with KeyError or IndexError |
| Axes.ToXyzString | packages/yostlabs-math/src/yostlabs/math/axes.py:83-92 | the loop builds the xyz text: a sign (`-`, or `+` when asked) then the axis letter per slot, IndexError for an order entry `'xyz'` cannot index |
| Axes.ToCompassString | packages/yostlabs-math/src/yostlabs/math/axes.py:94-100 | the loop builds the compass text: one letter per slot, the positive or negative letter of its axis |
| Axes.CompassText | packages/yostlabs-math/src/yostlabs/math/axes.py:97-99 | one compass letter per slot |
| Axes.XyzTextChars | packages/yostlabs-math/src/yostlabs/math/axes.py:86-91 | xyz text is made of signs and axis letters and ends with a letter |
| Axes.XyzTextNormalised | packages/yostlabs-math/src/yostlabs/math/axes.py:41-51 | printed xyz text is unchanged by lowering and stripping, and the parser reads it in xyz notation |
| Axes.XyzTextRuns | packages/yostlabs-math/src/yostlabs/math/axes.py:53-58 | parsing the first `k` printed slots fills exactly those slots |
| Axes.XyzRoundTrip | packages/yostlabs-math/src/yostlabs/math/axes.py:83-92 | `AxisOrder(a.to_xyz_string())` is `a` for every object whose order entries are in 0..2, whose multipliers are ±1 and whose handedness is the computed one |
| Axes.ParsesTo | packages/yostlabs-math/src/yostlabs/math/axes.py:39-43 | normalised text whose parse fills the slots of `a` builds `a` |
| Axes.CompassTextLetters | packages/yostlabs-math/src/yostlabs/math/axes.py:97-99 | each printed compass letter maps back to its slot's axis, is negative exactly for a -1 multiplier, and is no xyz letter |
| Axes.CompassSlotsFilled | packages/yostlabs-math/src/yostlabs/math/axes.py:60-63 | the compass parser's slot assignment on printed text is the object's order and multipliers |
| Axes.CompassParseComplete | packages/yostlabs-math/src/yostlabs/math/axes.py:59-63 | compass text of at most three letters fills that many slots |
| Axes.CompassTextParses | packages/yostlabs-math/src/yostlabs/math/axes.py:59-63 | printed compass text parses to the object's slots |
| Axes.CompassRoundTrip | packages/yostlabs-math/src/yostlabs/math/axes.py:94-100 | `AxisOrder(a.to_compass_string())` is `a` |
| Axes.XyzOverflow | packages/yostlabs-math/src/yostlabs/math/axes.py:53-58 | more letters or plus signs than slots left raise IndexError |
| Axes.XyzTextPlusCount | packages/yostlabs-math/src/yostlabs/math/axes.py:87-91 | with `include_plus`, each positive slot prints a `+` that the parser counts as a letter |
| Axes.IncludePlusDoesNotReparse | packages/yostlabs-math/src/yostlabs/math/axes.py:89-90 | text printed with `include_plus` and any positive slot does not parse back: it raises IndexError |
| Axes.XyzOrderCanonical | packages/yostlabs-math/src/yostlabs/math/axes.py:48-49 | the identity order is a printable object |
| Axes.XyzIsLeftHanded | packages/yostlabs-math/src/yostlabs/math/axes.py:68-74 | `AxisOrder('xyz')` has order [0,1,2] and multipliers [1,1,1] and is not right-handed |
| Axes.XyzOrderPrints | packages/yostlabs-math/src/yostlabs/math/axes.py:28 | 'xyz' prints as "xyz" |
| Axes.XyzInCompass | packages/yostlabs-math/src/yostlabs/math/axes.py:29 | 'xyz' prints as "eun" in compass notation |
| Axes.PlusFormOfXyz | packages/yostlabs-math/src/yostlabs/math/axes.py:89-90 | 'xyz' prints as "+x+y+z" with `include_plus`, which raises IndexError when parsed |
| Axes.EqualsAsWritten | packages/yostlabs-math/src/yostlabs/math/axes.py:108-116 | `__eq__` as written: a string operand that does not parse raises, because only ValueError and TypeError are caught |
| Axes.EqualsAsWrittenRaises | packages/yostlabs-math/src/yostlabs/math/axes.py:110-113 | comparing with any unparsable string raises the parser's error |
| Axes.EqualsAsWrittenCounterexample | packages/yostlabs-math/src/yostlabs/math/axes.py:110-113 | `AxisOrder('xyz') == 'abc'` raises KeyError |
| Axes.AbcDoesNotParse | packages/yostlabs-math/src/yostlabs/math/axes.py:59-61 | "abc" raises KeyError at its first letter |
| Axes.Equals | packages/yostlabs-math/src/yostlabs/math/axes.py:108-116 | the corrected comparison: a string that does not parse, or an object of another type, compares unequal |
| Axes.EqualsAgrees | packages/yostlabs-math/src/yostlabs/math/axes.py:108-116 | the corrected comparison agrees with the written one wherever that answers, and says False where it raises |
| Axes.EqualsIsEquivalence | packages/yostlabs-math/src/yostlabs/math/axes.py:114-116 | comparing objects is reflexive, symmetric and transitive |
| Axes.EqualsOwnText | packages/yostlabs-math/src/yostlabs/math/axes.py:108-116 | an object equals both of its printed forms |
| Axes.FromOrderAndMultipliers | packages/yostlabs-math/src/yostlabs/math/axes.py:121-126 | fewer than three order entries or multipliers raise IndexError; a built object has three slots and the handedness computed from its order and multipliers |
| Axes.FromOrderAndMultipliersBuilds | packages/yostlabs-math/src/yostlabs/math/axes.py:121-125 | with order entries in -3..2, the object has order `o mod 3`, multiplier -1 for each negative entry and +1 otherwise, and its handedness |
| Axes.FromOrderAndMultipliersRejects | packages/yostlabs-math/src/yostlabs/math/axes.py:124 | lists shorter than three, or an order entry outside -3..2, raise IndexError |
| Axes.Resolve | packages/yostlabs-math/src/yostlabs/math/axes.py:157-160 | an `AxisOrder` argument is used as is; a string is parsed |
| Axes.FirstIndex | packages/yostlabs-math/src/yostlabs/math/axes.py:168 | `list.index`: the index of the first occurrence, absent exactly when the value is not in the list |
| Axes.Negated | packages/yostlabs-math/src/yostlabs/math/axes.py:173 | every component negated |
| Axes.GatheredSwap | packages/yostlabs-math/src/yostlabs/math/axes.py:166-173 | the gathered components, negated when the flag is set and handedness differs, are the swapped vector |
| Axes.SwappedBetween | packages/yostlabs-math/src/yostlabs/math/axes.py:162-175 | succeeds exactly when the vector has three components and every target axis occurs in the current order, with three components |
| Axes.SwappedVector | packages/yostlabs-math/src/yostlabs/math/axes.py:157-175 | a swap that succeeds had at least three components and gives three |
| Axes.SwapVectorAxes | packages/yostlabs-math/src/yostlabs/math/axes.py:157-175 | the method computes `SwappedVector` |
| Axes.SwapBetween | packages/yostlabs-math/src/yostlabs/math/axes.py:162-175 | the loop computes `new[i] = vec[k] * cur.mult[k] * new.mult[i]`, `k` the index of `new.order[i]` in `cur.order`, negated on a handedness change when asked; ValueError when an axis is missing, IndexError for a short vector |
| Axes.FirstIndexOfOwnSlot | packages/yostlabs-math/src/yostlabs/math/axes.py:168 | in a permutation, each entry is first found in its own slot |
| Axes.SignsCancel | packages/yostlabs-math/src/yostlabs/math/axes.py:163-169 | applying ±1 multipliers twice gives back the value |
| Axes.SwapIdentity | packages/yostlabs-math/src/yostlabs/math/axes.py:162-175 | swapping to the same order returns the first three components |
| Axes.LookupBack | packages/yostlabs-math/src/yostlabs/math/axes.py:168 | between two permutations the slot lookups are inverse |
| Axes.GatheredFrom | packages/yostlabs-math/src/yostlabs/math/axes.py:168-169 | each output component comes from the looked-up input component |
| Axes.SwappedAt | packages/yostlabs-math/src/yostlabs/math/axes.py:166-173 | component `k` of the swap, with and without the handedness negation |
| Axes.SlotRoundTrip | packages/yostlabs-math/src/yostlabs/math/axes.py:162-175 | swapping there and back restores each component |
| Axes.SwapRoundTrip | packages/yostlabs-math/src/yostlabs/math/axes.py:162-175 | between two permutation orders with ±1 multipliers, the swap succeeds and swapping back gives the original three components, with or without the handedness negation |
| Axes.ZxyOrderProper | packages/yostlabs-math/src/yostlabs/math/axes.py:154 | 'zxy' is a permutation order with its handedness |
| Axes.ZxyOrderParses | packages/yostlabs-math/src/yostlabs/math/axes.py:154 | `AxisOrder('zxy')` has order [2,0,1] |
| Axes.NegXyzOrderProper | packages/yostlabs-math/src/yostlabs/math/axes.py:155 | '-xyz' is a permutation order with its handedness |
| Axes.NegXyzOrderParses | packages/yostlabs-math/src/yostlabs/math/axes.py:155 | `AxisOrder('-xyz')` negates x and is right-handed |
| Axes.SwapDocExampleZxy | packages/yostlabs-math/src/yostlabs/math/axes.py:153-154 | [1,2,3] from 'xyz' to 'zxy' is [3,1,2] |
| Axes.SwapDocExampleNegX | packages/yostlabs-math/src/yostlabs/math/axes.py:155 | [1,0,0] from 'xyz' to '-xyz' is [-1,0,0] |
| Axes.SwapFromXyz | packages/yostlabs-math/src/yostlabs/math/axes.py:162-175 | from 'xyz', component `i` of the result is input component `order[i]` times multiplier `i` |
| Axes.SlotFromXyz | packages/yostlabs-math/src/yostlabs/math/axes.py:168-169 | one component of a swap from 'xyz' |
| Axes.FirstIndexInXyz | packages/yostlabs-math/src/yostlabs/math/axes.py:168 | in 'xyz' every axis is found in its own slot |
| Axes.SwappedTo | packages/yostlabs-math/src/yostlabs/math/axes.py:76-81 | `swap_to` keeps the length and the components past the third unchanged |
| Axes.SwapTo | packages/yostlabs-math/src/yostlabs/math/axes.py:76-81 | the method computes `SwappedTo` |
| Axes.CopyTail | packages/yostlabs-math/src/yostlabs/math/axes.py:79-80 | the loop appends the components past the third |
| Axes.SwappedQuaternion | packages/yostlabs-math/src/yostlabs/math/axes.py:178-201 | a swapped quaternion has four components and the same `w` |
| Axes.QuaternionRoundTrip | packages/yostlabs-math/src/yostlabs/math/axes.py:178-201 | swapping a quaternion there and back gives it back |
| Axes.SwapToIsQuaternionSwap | packages/yostlabs-math/src/yostlabs/math/axes.py:76-81 | `swap_to(..., rotational=True)` on a quaternion is `swap_quaternion_axes` |
| Axes.AxisToUnitVector | packages/yostlabs-math/src/yostlabs/math/axes.py:203-208 | any vector it returns is one of the three unit vectors |
| Axes.UnitVectorIsAxis | packages/yostlabs-math/src/yostlabs/math/axes.py:203-208 | 0, 1, 2 and 'x', 'y', 'z' in either case give the unit vector with a 1 at that index; other numbers give None |
| Axes.UnitVectorNames | packages/yostlabs-math/src/yostlabs/math/axes.py:204-208 | a name gives a vector exactly when it lowers to 'x', 'y' or 'z' |
| BluetoothClassic.Decimal | src/yostlabs/communication/bluetooth.py:85 | `str(n)`: at least one character, all of them digits, with no leading zero except for 0 itself |
| BluetoothClassic.DecimalRoundTrip | src/yostlabs/communication/bluetooth.py:85 | reading the digits of `str(n)` back gives `n` |
| BluetoothClassic.DecodeClassOfDevice | src/yostlabs/communication/bluetooth.py:16-87 | keeps the raw word; at least one service name; major name from the major field, minor name from the major and minor fields |
| BluetoothClassic.FieldsRoundTrip | src/yostlabs/communication/bluetooth.py:74-76 | a word built from services, major, minor and format fields decodes to the same major and minor fields |
| BluetoothClassic.ListedIffSet | src/yostlabs/communication/bluetooth.py:79 | with distinct names, a service is listed exactly when its bit is set |
| BluetoothClassic.NotListedLater | src/yostlabs/communication/bluetooth.py:79 | a service is not listed again among the later table entries |
| BluetoothClassic.ListedEmptyIffNoneSet | src/yostlabs/communication/bluetooth.py:79 | no service is listed exactly when none of the bits is set |
| BluetoothClassic.ListedFromTable | src/yostlabs/communication/bluetooth.py:79 | only table names are listed |
| BluetoothClassic.ServiceNamesDistinct | src/yostlabs/communication/bluetooth.py:20-30 | the nine service names are distinct, and none is "None" |
| BluetoothClassic.DecodedServices | src/yostlabs/communication/bluetooth.py:79-87 | the services are ["None"] exactly when none of the nine bits is set, and otherwise name each service whose bit is set and no other |
| BluetoothClassic.DecimalZero | src/yostlabs/communication/bluetooth.py:85 | "0" is the text of 0 only |
| BluetoothClassic.WearableIsMajorSeven | src/yostlabs/communication/bluetooth.py:33-45 | only major class 0x07 is named "Wearable" |
| BluetoothClassic.DefaultFilter | src/yostlabs/communication/bluetooth.py:152-154 | an accepted result has the wearable major class, 0x07 |
| BluetoothClassic.DefaultFilterAccepts | src/yostlabs/communication/bluetooth.py:152-154 | the default filter accepts exactly words whose major field is 0x07 and whose minor field is 0 |
| BluetoothClassic.Results | src/yostlabs/communication/bluetooth.py:129 | one result per device found, in order, with address, name and decoded class |
| BluetoothClassic.Scanner.constructor | src/yostlabs/communication/bluetooth.py:97-104 | disabled, done, no results, no update, inquiry length `interval / 1.2` rounded down |
| BluetoothClassic.Scanner.Start | src/yostlabs/communication/bluetooth.py:106-112 | no-op unless done; otherwise enabled, not done, no update |
| BluetoothClassic.Scanner.Stop | src/yostlabs/communication/bluetooth.py:114-115 | clears `enabled` only |
| BluetoothClassic.Scanner.GetMostRecent | src/yostlabs/communication/bluetooth.py:117-120 | None unless updated; otherwise the latest results, and the update is consumed |
| BluetoothClassic.Scanner.IsRunning | src/yostlabs/communication/bluetooth.py:122-124 | as written, `is_running` is True exactly when the scan thread is not alive (see Findings) |
| BluetoothClassic.Scanner.Running | src/yostlabs/communication/bluetooth.py:122-124 | whether the scan thread is alive: not `done` |
| BluetoothClassic.Scanner.LoopCheck | src/yostlabs/communication/bluetooth.py:127-131 | the thread starts an inquiry when enabled, or leaves its loop and sets `done` |
| BluetoothClassic.Scanner.RoundCompleted | src/yostlabs/communication/bluetooth.py:128-130 | an inquiry's results replace `nearby` and `updated` is set, even after `stop` |
| BluetoothClassic.MostRecentConsumedOnce | src/yostlabs/communication/bluetooth.py:117-120 | two calls with no inquiry in between give the results, then None |
| BluetoothClassic.IsRunningAfterStart | src/yostlabs/communication/bluetooth.py:122-124 | right after `start`, `is_running` reports False while the scan thread is alive |
| BluetoothClassic.StopEndsThread | src/yostlabs/communication/bluetooth.py:114-131 | `stop` followed by the thread's next loop check ends the thread |
| BluetoothClassic.DisplayName | src/yostlabs/communication/bluetooth.py:140 | the name when it is given and not empty, otherwise the address |
| BluetoothClassic.AutoDetect | src/yostlabs/communication/bluetooth.py:163-172 | nothing when there are no results; otherwise the loop yields, in order, a candidate for each result the given or default filter accepts |
| BluetoothClassic.Candidates | src/yostlabs/communication/bluetooth.py:169-172 | at most one candidate per result, and exactly one per result when the filter accepts them all |
| BluetoothClassic.CandidatesFiltered | src/yostlabs/communication/bluetooth.py:169-172 | every candidate comes from an accepted result, keeps its address and is named by its name or else its address; every accepted result gives a candidate |
| BluetoothClassic.DefaultCandidatesAreWearable | src/yostlabs/communication/bluetooth.py:152-172 | with the default filter, every candidate is a device found whose major field is 0x07 and minor field 0 |

## Left out

- Real I/O:
  - `socket.connect`, `recv` and `send`;
  - bleak `connect`, `start_notify`, `write_gatt_char` and `BleakScanner`;
  - pybluez `discover_devices` and the RFCOMM socket.
  
  They are modelled as given traces (`arrivals`, `notifications`, `heard`, the inquiry results) and recorded outputs (`sent`, `written`). Exceptions from these libraries are not modelled, except a failing connect.
- Concurrency:
  - the asyncio event loops and the read event;
  - the scanner thread, which appears only through its two steps `LoopCheck` and `RoundCompleted`;
  - the lazy class-level scanner singletons, `__lazy_init_scanner` in both transports.
- Wall-clock time, `time.sleep`, and fractional timeouts. Timeouts are whole ticks.
- SocketTransport.SocketComm.UpdateWhile, `BleTransport.BleComm.AwaitWhile` and `BleDiscovery.DeviceTable.UpdateContinuous`: a timeout or an expiration counts polls, notifications or scan turns, one tick each, not seconds. So a wait takes at most `timeout` chunks (at least one poll on a socket), where the source keeps receiving for `timeout` seconds; with the default timeout of 2, `read(50)` over five pending 10-byte chunks returns 20 bytes in the model and 50 in the source.
- SocketTransport.SocketComm.UpdateBuffer: the `max_bytes` cap of `recv` is not modelled. Each poll receives one whole chunk of the trace.
- SocketTransport.SocketComm.Open: the connection timeout and blocking-mode switches are not modelled, only whether connect succeeds.
- SocketTransport.SocketComm.Length: it drains the finite trace. In the source the loop never ends while `recv` keeps returning: a peer that kept sending, and any peer that has closed the connection, whose `recv` returns `b''` on every call (socket.py:105-109 then reports True), make `length` loop forever.
- SocketTransport.SocketComm.Arrive: data reaches the socket only between calls. Data that arrives during one wait, after a poll of that wait has found nothing, is not represented: within one call the trace of arrivals is fixed.
- `timeout` property setters, `reenumerates` and `name` getters: trivial accessors.
- BleTransport.BleComm.AwaitRead: it is the corrected await (see Findings). As written, ble.py:93 never times out, and `AwaitReadAsWritten` models that.
- BleTransport.BleComm.AwaitWhile: the bound `clock <= start + timeout` holds of the corrected await only. The written loop hangs on a silent device, as `AwaitWhileAsWritten` states.
- BleTransport.BleComm.AwaitNumBytes: built on the corrected `AwaitWhile`, so its timeout bound is that of the corrected await.
- BleTransport.BleComm.AwaitPattern: built on the corrected `AwaitWhile`, so its timeout bound is that of the corrected await.
- BleTransport.BleComm.Read, `Peek`, `ReadUntil` and `PeekUntil` run over the corrected await. What they state about the result and the notifications taken also holds of every run of the written code that returns, since `AwaitWhileAsWritten` takes notifications the same way.
- BleTransport.BleComm.Open: requires an MTU of at least 23, the least ATT_MTU the Bluetooth Core Specification allows (Vol 3, Part F, section 3.2.8). An MTU of 3 or less gives a packet size of 0 or less, with which `write` would loop forever; an MTU between 4 and 22 still terminates but is not one a device can negotiate.
- BleDiscovery.DeviceTable.UpdateOneShot: with neither a timeout nor a find count, it also stops when the trace of advertisements runs out. The source would keep scanning.
- BleDiscovery.DeviceTable.UpdateNearbyDevices: in one-shot mode it states only that the table is the result of some number of scan turns. `UpdateOneShot` states which number.
- BLE `auto_detect` (ble.py:244-253): the candidates are the table's devices in dictionary order, which the map model does not keep.
- Axes: `lower()` and `strip()` are modelled for ASCII letters and ASCII whitespace only.
- Axes.AxisToUnitVector: booleans and floats equal to 0, 1 or 2, which Python also accepts, are not modelled.
- `__str__`, `__repr__` and `__hash__` of `AxisOrder` are not modelled. `__hash__` uses the same pair as `__eq__`.
- packages/yostlabs-math/src/yostlabs/math/quaternion.py, src/yostlabs/tss3/consts.py, Examples/example_commands.py and the `__main__` demo of bluetooth.py are not part of this model.
- BluetoothClassic.Scanner.constructor: `interval / 1.2` is computed exactly as `interval * 5 / 6` on whole intervals. Floating-point rounding of the division is not modelled.
- BluetoothClassic.AutoDetect: the `wait_for_update` busy wait is not modelled. The method takes the scanner's `nearby` as it stands when the wait ends.
- BluetoothClassic.FieldsRoundTrip: states the major and minor fields only. The service bits are covered by `DecodedServices` in terms of the word's bits.

## Findings

| source | as written | input that shows it | evidently intended | confidence | as-written member | corrected member |
|---|---|---|---|---|---|---|
| src/yostlabs/communication/socket.py:92 | with no match, `peek_until` returns `self.buffer[length]`, one byte, not a slice | buffer "ABC", expected "\n", no `max_length`: IndexError | `self.buffer[:length]`, as ble.py:147 does | high, not executed | SocketTransport.PeekUntilNoMatchCounterexample | ByteStream.PeekUntilLength |
| packages/yostlabs-math/src/yostlabs/math/axes.py:110-113 | `__eq__` catches ValueError and TypeError, but the parser raises KeyError or IndexError | `AxisOrder('xyz') == 'abc'` raises KeyError | an unparsable string compares unequal | high, not executed | Axes.EqualsAsWrittenCounterexample | Axes.EqualsAgrees |
| src/yostlabs/communication/ble.py:93 | `timeout_at` is given `time.time() + timeout`, an epoch time, but compares it with the event loop's monotonic clock, so the deadline is decades away and never fires | a connected device that sends nothing, then `read(1)` or `read_until(b"\n")`: the call never returns | the await gives up `timeout` seconds after the read began, e.g. with `loop.time() + timeout` as the deadline | medium, not executed | BleTransport.SilentDeviceReadHangs | BleTransport.BleComm.AwaitWhile |
| src/yostlabs/communication/bluetooth.py:122-124 | `is_running` returns `done` | right after `start()`, `is_running` is False while the thread runs | `not self.done` | medium, not executed | BluetoothClassic.IsRunningAfterStart | BluetoothClassic.Scanner.Running |

The handedness rule (axes.py:68-74) makes `'xyz'` left-handed. The class
docstring (axes.py:31) shows it as right-handed. The model follows the code:
`Axes.XyzIsLeftHanded` states it.
