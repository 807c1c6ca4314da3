/** The class-level table of nearby BLE sensors kept by
    `ThreespaceBLEComClass`: the scanner's detection callback records every
    advertisement under the device address, continuous scanning prunes
    entries that have not been heard for a while, and a one-shot scan clears
    the table and listens until a time or a count limit is reached.

    The radio is explicit. `heard` holds, turn by turn, the advertisements
    whose callbacks the event loop runs when it is given a turn; `clock` is
    abstract time, and every turn of the event loop takes one tick. */
module BleDiscovery {
  import opened Wrappers

  /** One advertisement: the device address and the opaque `BLEDevice` and
      `AdvertisementData` objects the scanner hands over. */
  datatype Detection = Detection(address: string, device: nat, adv: nat)

  /** A table entry: `{"device": ..., "adv": ..., "last_found": ...}`. */
  datatype DeviceRecord = DeviceRecord(device: nat, adv: nat, lastFound: int)

  type Table = map<string, DeviceRecord>

  /** The addresses a batch of advertisements names. */
  function Addresses(ds: seq<Detection>): set<string> {
    set i | 0 <= i < |ds| :: ds[i].address
  }

  /** The table after the detection callback ran on each advertisement of
      `ds` in turn at time `now`: the last advertisement of an address wins. */
  function Recorded(m: Table, ds: seq<Detection>, now: int): Table
    decreases |ds|
  {
    if ds == [] then m
    else
      var d := ds[|ds| - 1];
      Recorded(m, ds[..|ds| - 1], now)[d.address := DeviceRecord(d.device, d.adv, now)]
  }

  /** Recording adds exactly the addresses heard, stamps each with `now`, and
      leaves every other entry as it was. */
  lemma {:induction false} RecordedEntries(m: Table, ds: seq<Detection>, now: int)
    ensures Recorded(m, ds, now).Keys == m.Keys + Addresses(ds)
    ensures forall a :: a in Addresses(ds) ==> Recorded(m, ds, now)[a].lastFound == now
    ensures forall a :: a in m && a !in Addresses(ds) ==> Recorded(m, ds, now)[a] == m[a]
    decreases |ds|
  {
    if ds != [] {
      var init := ds[..|ds| - 1];
      RecordedEntries(m, init, now);
      assert Addresses(ds) == Addresses(init) + {ds[|ds| - 1].address} by {
        forall a | a in Addresses(ds)
          ensures a in Addresses(init) + {ds[|ds| - 1].address}
        {
          var i :| 0 <= i < |ds| && ds[i].address == a;
          if i < |ds| - 1 {
            assert init[i] == ds[i];
          }
        }
        forall a | a in Addresses(init)
          ensures a in Addresses(ds)
        {
          var i :| 0 <= i < |init| && init[i].address == a;
          assert ds[i] == init[i];
        }
      }
    }
  }

  /** The entry of an address that was last heard more than `expiration`
      ticks before `now` has expired. */
  predicate Expired(r: DeviceRecord, now: int, expiration: int) {
    now - r.lastFound > expiration
  }

  /** The table with every expired entry removed. */
  function Pruned(m: Table, now: int, expiration: int): (r: Table)
    ensures forall a :: a in r <==> a in m && !Expired(m[a], now, expiration)
    ensures forall a :: a in r ==> r[a] == m[a]
  {
    map a | a in m && !Expired(m[a], now, expiration) :: m[a]
  }

  /** Pruning twice at the same time prunes nothing more. */
  lemma PrunedIdempotent(m: Table, now: int, expiration: int)
    ensures Pruned(Pruned(m, now, expiration), now, expiration) == Pruned(m, now, expiration)
  {
    var p := Pruned(m, now, expiration);
    assert Pruned(p, now, expiration).Keys == p.Keys;
  }

  /** A device heard in the turn just before a prune survives it, and one not
      heard for longer than the expiration time is gone. */
  lemma HeardDevicesSurvive(m: Table, ds: seq<Detection>, now: int, expiration: int)
    requires expiration >= 0
    ensures Addresses(ds) <= Pruned(Recorded(m, ds, now), now, expiration).Keys
    ensures forall a :: a in m && a !in Addresses(ds) && Expired(m[a], now, expiration) ==>
      a !in Pruned(Recorded(m, ds, now), now, expiration)
  {
    RecordedEntries(m, ds, now);
  }

  /** What one turn of the event loop delivers: the next batch of the
      trace, or nothing once the trace is used up. */
  function Batch(heard: seq<seq<Detection>>, j: nat): seq<Detection> {
    if j < |heard| then heard[j] else []
  }

  /** The table after `n` turns of the event loop starting at time `t0`:
      turn `j` (counting from 1) runs its callbacks at time `t0 + j`. */
  function AfterTurns(m: Table, heard: seq<seq<Detection>>, t0: int, n: nat): Table
    decreases n
  {
    if n == 0 then m else Recorded(AfterTurns(m, heard, t0, n - 1), Batch(heard, n - 1), t0 + n)
  }

  lemma AfterTurnsStep(m: Table, heard: seq<seq<Detection>>, t0: int, n: nat)
    ensures AfterTurns(m, heard, t0, n + 1) == Recorded(AfterTurns(m, heard, t0, n), Batch(heard, n), t0 + n + 1)
  {
  }

  /** Dropping one more batch from what is left of the trace. */
  lemma SuffixStep(heard: seq<seq<Detection>>, n: nat)
    ensures heard[Min(n, |heard|)..][Min(1, |heard[Min(n, |heard|)..]|)..] == heard[Min(n + 1, |heard|)..]
  {
  }

  /** The addresses heard in the first `n` turns. */
  function HeardIn(heard: seq<seq<Detection>>, n: nat): set<string> {
    if n == 0 then {} else HeardIn(heard, n - 1) + Addresses(Batch(heard, n - 1))
  }

  /** After `n` turns the table holds the addresses it held before and those
      heard in the turns. */
  lemma {:induction false} AfterTurnsKeys(m: Table, heard: seq<seq<Detection>>, t0: int, n: nat)
    ensures AfterTurns(m, heard, t0, n).Keys == m.Keys + HeardIn(heard, n)
  {
    if n > 0 {
      AfterTurnsKeys(m, heard, t0, n - 1);
      RecordedEntries(AfterTurns(m, heard, t0, n - 1), Batch(heard, n - 1), t0 + n);
    }
  }

  /** Starting from an empty table, every entry after `n` turns is stamped
      with the time of one of them. */
  lemma {:induction false} AfterTurnsStamps(heard: seq<seq<Detection>>, t0: int, n: nat)
    ensures forall a :: a in AfterTurns(map[], heard, t0, n) ==>
      t0 < AfterTurns(map[], heard, t0, n)[a].lastFound <= t0 + n
  {
    if n > 0 {
      AfterTurnsStamps(heard, t0, n - 1);
      RecordedEntries(AfterTurns(map[], heard, t0, n - 1), Batch(heard, n - 1), t0 + n);
    }
  }

  /** `SCANNER_TIMEOUT or float('inf')` and `SCANNER_FIND_COUNT or
      float('inf')`: `None` and 0 both mean no limit. */
  function Limit(setting: Option<nat>): Option<nat> {
    if setting.None? || setting.value == 0 then None else setting
  }

  /** Whether a one-shot scan on `trace` from `start` is still going after
      `t` turns: the time limit `end` has not passed, fewer than `count`
      devices are known, and, with no time limit, advertisements remain. */
  ghost predicate KeepsScanning(end: Option<nat>, count: Option<nat>, trace: seq<seq<Detection>>, start: int, t: nat) {
    && (end.None? || t < end.value)
    && (count.None? || |AfterTurns(map[], trace, start, t)| < count.value)
    && (end.Some? || t < |trace|)
  }

  /** The class attributes of `ThreespaceBLEComClass` that drive discovery. */
  class DeviceTable {
    var continuous: bool
    /** Whether the scanner has been started and not stopped since. */
    var scanning: bool
    var scannerTimeout: Option<nat>
    var findCount: Option<nat>
    var expirationTime: int
    var discovered: Table
    var clock: int
    var heard: seq<seq<Detection>>

    /** The class attributes as the source initialises them: one-shot
        scanning for at most 5 time units or until 1 device is found, entries
        expiring after 5, an empty table. */
    constructor(trace: seq<seq<Detection>>, now: int)
      ensures !continuous && !scanning
      ensures scannerTimeout == Some(5) && findCount == Some(1) && expirationTime == 5
      ensures discovered == map[] && clock == now && heard == trace
    {
      continuous, scanning := false, false;
      scannerTimeout, findCount, expirationTime := Some(5), Some(1), 5;
      discovered, clock, heard := map[], now, trace;
    }

    /** `__detection_callback`: (re)record the device under its address,
        stamped with the current time. */
    method DetectionCallback(d: Detection)
      modifies this
      ensures discovered == old(discovered)[d.address := DeviceRecord(d.device, d.adv, clock)]
      ensures d.address in discovered && discovered[d.address].lastFound == clock
      ensures unchanged(this`continuous, this`scanning, this`clock, this`heard)
      ensures unchanged(this`scannerTimeout, this`findCount, this`expirationTime)
    {
      discovered := discovered[d.address := DeviceRecord(d.device, d.adv, clock)];
    }

    /** `set_scanner_continous`: record the mode and start or stop the scanner. */
    method SetScannerContinuous(c: bool)
      modifies this
      ensures continuous == c && scanning == c
      ensures unchanged(this`discovered, this`clock, this`heard)
      ensures unchanged(this`scannerTimeout, this`findCount, this`expirationTime)
    {
      continuous := c;
      scanning := c;
    }

    /** `run_until_complete(__wait_for_callbacks_async())`: one tick passes
        and the scanner callbacks of the next batch run in order. */
    method RunCallbacks()
      modifies this
      ensures clock == old(clock) + 1
      ensures discovered == Recorded(old(discovered), Batch(old(heard), 0), clock)
      ensures heard == old(heard)[Min(1, |old(heard)|)..]
      ensures unchanged(this`continuous, this`scanning)
      ensures unchanged(this`scannerTimeout, this`findCount, this`expirationTime)
    {
      clock := clock + 1;
      var batch := Batch(heard, 0);
      if heard != [] {
        heard := heard[1..];
      }
      ghost var m0 := discovered;
      for i := 0 to |batch|
        invariant discovered == Recorded(m0, batch[..i], clock)
        invariant clock == old(clock) + 1 && heard == old(heard)[Min(1, |old(heard)|)..]
        invariant unchanged(this`continuous, this`scanning)
        invariant unchanged(this`scannerTimeout, this`findCount, this`expirationTime)
      {
        DetectionCallback(batch[i]);
        assert batch[..i + 1][..i] == batch[..i];
      }
      assert batch[..|batch|] == batch;
    }

    /** The expiry pass of continuous scanning: collect the expired addresses
        first, then delete them. The dictionary's iteration order is left
        open; the outcome does not depend on it. */
    method RemoveExpired(now: int)
      modifies this
      ensures discovered == Pruned(old(discovered), now, expirationTime)
      ensures unchanged(this`continuous, this`scanning, this`clock, this`heard)
      ensures unchanged(this`scannerTimeout, this`findCount, this`expirationTime)
    {
      ghost var m0 := discovered;
      var toRemove: seq<string> := [];
      var keys := discovered.Keys;
      while keys != {}
        invariant keys <= m0.Keys && discovered == m0
        invariant forall a :: a in toRemove ==> a in m0 && Expired(m0[a], now, expirationTime)
        invariant forall a :: a in m0 && a !in keys && Expired(m0[a], now, expirationTime) ==> a in toRemove
        decreases keys
      {
        var a :| a in keys;
        if now - discovered[a].lastFound > expirationTime {
          toRemove := toRemove + [a];
        }
        keys := keys - {a};
      }
      for i := 0 to |toRemove|
        invariant discovered == map a | a in m0 && a !in toRemove[..i] :: m0[a]
        invariant unchanged(this`continuous, this`scanning, this`clock, this`heard)
        invariant unchanged(this`scannerTimeout, this`findCount, this`expirationTime)
      {
        discovered := discovered - {toRemove[i]};
        assert toRemove[..i + 1] == toRemove[..i] + [toRemove[i]];
      }
      assert toRemove[..|toRemove|] == toRemove;
    }

    /** `update_nearby_devices` in continuous mode: let the callbacks run,
        then remove the entries that have expired by the current time. */
    method UpdateContinuous()
      requires continuous
      modifies this
      ensures clock == old(clock) + 1
      ensures discovered == Pruned(Recorded(old(discovered), Batch(old(heard), 0), clock), clock, expirationTime)
      ensures heard == old(heard)[Min(1, |old(heard)|)..]
      ensures unchanged(this`continuous, this`scanning)
      ensures unchanged(this`scannerTimeout, this`findCount, this`expirationTime)
    {
      RunCallbacks();
      RemoveExpired(clock);
    }

    /** The table, clock and remaining trace after `turns` turns of a
        one-shot scan that started at `start` on `trace`. */
    ghost predicate ScannedFor(trace: seq<seq<Detection>>, start: int, turns: nat)
      reads this
    {
      && clock == start + turns
      && discovered == AfterTurns(map[], trace, start, turns)
      && heard == trace[Min(turns, |trace|)..]
    }

    /** One turn of the event loop during a one-shot scan. */
    method Turn(ghost trace: seq<seq<Detection>>, ghost start: int, ghost turns: nat)
      requires ScannedFor(trace, start, turns)
      modifies this
      ensures ScannedFor(trace, start, turns + 1)
      ensures unchanged(this`continuous, this`scanning)
      ensures unchanged(this`scannerTimeout, this`findCount, this`expirationTime)
    {
      assert Batch(heard, 0) == Batch(trace, turns);
      RunCallbacks();
      AfterTurnsStep(map[], trace, start, turns);
      SuffixStep(trace, turns);
    }

    /** `update_nearby_devices` in one-shot mode: clear the table, start the
        scanner, give the event loop turns while the time limit has not
        passed and fewer devices than the count limit are known, then stop
        the scanner. With no time limit the loop also ends once the trace is
        used up, where the source would wait on. Returns the number of turns. */
    method UpdateOneShot() returns (turns: nat)
      requires !continuous
      modifies this
      ensures !scanning && !continuous
      ensures ScannedFor(old(heard), old(clock), turns)
      ensures var end := Limit(scannerTimeout); var count := Limit(findCount);
        || (end.Some? && turns >= end.value)
        || (count.Some? && |discovered| >= count.value)
        || (end.None? && turns >= |old(heard)|)
      ensures var end := Limit(scannerTimeout);
        end.Some? ==> turns <= end.value
      ensures forall t :: 0 <= t < turns ==> KeepsScanning(Limit(scannerTimeout), Limit(findCount), old(heard), old(clock), t)
      ensures !KeepsScanning(Limit(scannerTimeout), Limit(findCount), old(heard), old(clock), turns)
      ensures unchanged(this`scannerTimeout, this`findCount, this`expirationTime)
    {
      discovered := map[];
      ghost var trace := heard;
      var start := clock;
      var end := Limit(scannerTimeout);
      var count := Limit(findCount);
      scanning := true;
      turns := 0;
      while (end.None? || clock - start < end.value) && (count.None? || |discovered| < count.value)
            && (end.Some? || heard != [])
        invariant ScannedFor(trace, start, turns) && !continuous
        invariant end.Some? ==> turns <= end.value
        invariant forall t :: 0 <= t < turns ==> KeepsScanning(end, count, trace, start, t)
        invariant unchanged(this`scannerTimeout, this`findCount, this`expirationTime)
        decreases if end.Some? then end.value - turns else 0, |heard|
      {
        assert KeepsScanning(end, count, trace, start, turns);
        Turn(trace, start, turns);
        turns := turns + 1;
      }
      scanning := false;
    }

    /** `update_nearby_devices`: the update for the configured mode. */
    method UpdateNearbyDevices() returns (table: Table)
      modifies this
      ensures continuous == old(continuous)
      ensures old(continuous) ==>
        discovered == Pruned(Recorded(old(discovered), Batch(old(heard), 0), clock), clock, expirationTime)
      ensures !old(continuous) ==> exists n: nat :: discovered == AfterTurns(map[], old(heard), old(clock), n)
      ensures table == discovered
    {
      if continuous {
        UpdateContinuous();
      } else {
        var n := UpdateOneShot();
      }
      table := discovered;
    }

    /** `get_discovered_nearby_devices`: a copy of the table (a value, so
        later updates of the table do not reach it). */
    function DiscoveredNearbyDevices(): (r: Table)
      reads this
      ensures r.Keys == discovered.Keys
      ensures forall a :: a in r ==> r[a] == discovered[a]
    {
      discovered
    }
  }

  /** After a one-shot scan the table holds exactly the addresses heard
      during it, each stamped with a time within the scan: nothing from
      before the scan survives. */
  lemma OneShotForgetsEarlierDevices(heard: seq<seq<Detection>>, t0: int, n: nat)
    ensures AfterTurns(map[], heard, t0, n).Keys == HeardIn(heard, n)
    ensures forall a :: a in AfterTurns(map[], heard, t0, n) ==>
      t0 < AfterTurns(map[], heard, t0, n)[a].lastFound <= t0 + n
  {
    AfterTurnsKeys(map[], heard, t0, n);
    AfterTurnsStamps(heard, t0, n);
  }
}
