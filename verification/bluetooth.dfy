/** Bluetooth Classic discovery: decoding the Class of Device word a
    device reports, the background `Scanner` whose thread keeps running
    inquiries, and the candidate list `auto_detect` builds from its latest
    results.

    The thread is explicit: `LoopCheck` is the thread testing `enabled` at
    the top of its loop, `RoundCompleted` the end of one inquiry with the
    devices it found. Both are steps the environment takes between calls to
    the scanner's own methods. */
module BluetoothClassic {
  import opened Wrappers

  // ---------------------------------------------------------------------
  // Class of Device
  // ---------------------------------------------------------------------

  /** The decoded Class of Device (`COD`). */
  datatype Cod = Cod(raw: int, services: seq<string>, majorClass: string, minorClass: string)

  /** The service class names in table order; name `j` belongs to bit
      `13 + j` of the word (masks 0x002000 up to 0x200000). */
  const ServiceNames: seq<string> :=
    ["Limited Discoverable Mode", "Positioning (Location Identification)", "Networking", "Rendering",
     "Capturing", "Object Transfer", "Audio", "Telephony", "Information"]

  const MajorClasses: map<int, string> :=
    map[0x00 := "Miscellaneous", 0x01 := "Computer", 0x02 := "Phone", 0x03 := "LAN/Network Access Point",
        0x04 := "Audio/Video", 0x05 := "Peripheral", 0x06 := "Imaging", 0x07 := "Wearable",
        0x08 := "Toy", 0x09 := "Health", 0x1F := "Uncategorized"]

  const MinorClasses: map<int, map<int, string>> :=
    map[0x01 := map[0x00 := "Uncategorized", 0x01 := "Desktop workstation", 0x02 := "Server-class computer",
                    0x03 := "Laptop", 0x04 := "Handheld PC/PDA", 0x05 := "Palm-size PC/PDA"],
        0x02 := map[0x00 := "Uncategorized", 0x01 := "Cellular", 0x02 := "Cordless", 0x03 := "Smartphone",
                    0x04 := "Wired modem or voice gateway", 0x05 := "Common ISDN access"],
        0x05 := map[0x00 := "Uncategorized", 0x01 := "Keyboard", 0x02 := "Pointing device",
                    0x03 := "Combo keyboard/pointing device"]]

  /** `(cod >> 8) & 0x1F` and `(cod >> 2) & 0x3F`. Python shifts floor and
      masks keep the non-negative remainder, which is what Dafny's `/` and
      `%` by a positive divisor compute, for negative words too. */
  function MajorField(cod: int): int { (cod / 0x100) % 0x20 }
  function MinorField(cod: int): int { (cod / 0x4) % 0x40 }

  function Pow2(n: nat): (r: int)
    ensures r > 0
  {
    if n == 0 then 1 else 2 * Pow2(n - 1)
  }

  /** The single-bit mask of service class `j`. */
  function ServiceMask(j: nat): int { Pow2(13 + j) }

  /** `cod & 0xFFE000 & mask` is non-zero for the mask of service class `j`. */
  predicate ServiceBitSet(cod: int, j: nat) {
    (cod / ServiceMask(j)) % 2 == 1
  }

  /** The names (from `names`, one per service class in table order) of
      the classes `i..` whose bit is set, in table order. */
  function Listed(names: seq<string>, cod: int, i: nat): (r: seq<string>)
    requires i <= |names|
    ensures |r| <= |names| - i
    decreases |names| - i
  {
    if i == |names| then []
    else (if ServiceBitSet(cod, i) then [names[i]] else []) + Listed(names, cod, i + 1)
  }

  /** `str(n)` for a natural number. */
  function Decimal(n: nat): (s: string)
    ensures |s| >= 1 && (n >= 10 ==> |s| >= 2)
    ensures forall i :: 0 <= i < |s| ==> '0' <= s[i] <= '9'
    ensures s[0] != '0' || n == 0
  {
    if n < 10 then [(48 + n) as char] else Decimal(n / 10) + [(48 + n % 10) as char]
  }

  /** The number a string of decimal digits denotes, most significant first. */
  function DigitsValue(s: string): nat
    requires forall i :: 0 <= i < |s| ==> '0' <= s[i] <= '9'
  {
    if s == [] then 0 else DigitsValue(s[..|s| - 1]) * 10 + (s[|s| - 1] as int - 48)
  }

  /** Reading the decimal text back gives the number. */
  lemma {:induction false} DecimalRoundTrip(n: nat)
    ensures DigitsValue(Decimal(n)) == n
    decreases n
  {
    if n >= 10 {
      var s := Decimal(n);
      assert s[..|s| - 1] == Decimal(n / 10);
      DecimalRoundTrip(n / 10);
    }
  }

  function MajorName(major: int): string {
    if major in MajorClasses then MajorClasses[major] else "Unknown"
  }

  function MinorName(major: int, minor: int): string
    requires 0 <= minor
  {
    if major in MinorClasses && minor in MinorClasses[major] then MinorClasses[major][minor]
    else "Minor code " + Decimal(minor)
  }

  /** `decode_class_of_device`. */
  function DecodeClassOfDevice(cod: int): (r: Cod)
    ensures r.raw == cod && |r.services| >= 1
    ensures r.majorClass == MajorName(MajorField(cod)) && r.minorClass == MinorName(MajorField(cod), MinorField(cod))
  {
    var services := Listed(ServiceNames, cod, 0);
    Cod(cod, if services == [] then ["None"] else services, MajorName(MajorField(cod)), MinorName(MajorField(cod), MinorField(cod)))
  }

  /** A Class of Device word put together from its fields: format type in
      bits 0-1, minor class in bits 2-7, major class in bits 8-12 and the
      service classes in bits 13-23. */
  function EncodeClassOfDevice(services: nat, major: nat, minor: nat, format: nat): int {
    services * 0x2000 + major * 0x100 + minor * 0x4 + format
  }

  /** Decoding reads back the major and minor fields a word was built from. */
  lemma FieldsRoundTrip(services: nat, major: nat, minor: nat, format: nat)
    requires services < 0x800 && major < 0x20 && minor < 0x40 && format < 0x4
    ensures MajorField(EncodeClassOfDevice(services, major, minor, format)) == major
    ensures MinorField(EncodeClassOfDevice(services, major, minor, format)) == minor
  {
    var cod := EncodeClassOfDevice(services, major, minor, format);
    assert cod / 0x100 == services * 0x20 + major;
    assert cod / 0x4 == services * 0x800 + major * 0x40 + minor;
  }

  predicate Distinct(names: seq<string>) {
    forall i, j :: 0 <= i < j < |names| ==> names[i] != names[j]
  }

  /** With distinct names, class `j` is listed exactly when its bit is set. */
  lemma {:induction false} ListedIffSet(names: seq<string>, cod: int, i: nat, j: nat)
    requires Distinct(names) && i <= j < |names|
    ensures names[j] in Listed(names, cod, i) <==> ServiceBitSet(cod, j)
    decreases j - i
  {
    var rest := Listed(names, cod, i + 1);
    assert Listed(names, cod, i) == (if ServiceBitSet(cod, i) then [names[i]] else []) + rest;
    if i < j {
      ListedIffSet(names, cod, i + 1, j);
      assert names[i] != names[j];
    } else {
      NotListedLater(names, cod, i + 1, j);
    }
  }

  /** Names of later table entries only. */
  lemma {:induction false} NotListedLater(names: seq<string>, cod: int, i: nat, j: nat)
    requires Distinct(names) && j < i <= |names|
    ensures names[j] !in Listed(names, cod, i)
    decreases |names| - i
  {
    if i < |names| {
      NotListedLater(names, cod, i + 1, j);
      assert names[j] != names[i];
    }
  }

  /** Nothing is listed exactly when none of the bits is set. */
  lemma {:induction false} ListedEmptyIffNoneSet(names: seq<string>, cod: int, i: nat)
    requires i <= |names|
    ensures Listed(names, cod, i) == [] <==> forall j :: i <= j < |names| ==> !ServiceBitSet(cod, j)
    decreases |names| - i
  {
    if i < |names| {
      ListedEmptyIffNoneSet(names, cod, i + 1);
    }
  }

  /** Only table names are listed. */
  lemma {:induction false} ListedFromTable(names: seq<string>, cod: int, i: nat, n: string)
    requires i <= |names| && n !in names
    ensures n !in Listed(names, cod, i)
    decreases |names| - i
  {
    if i < |names| {
      ListedFromTable(names, cod, i + 1, n);
    }
  }

  lemma ServiceNamesDistinct()
    ensures Distinct(ServiceNames) && "None" !in ServiceNames
  {
    forall j | 0 <= j < |ServiceNames|
      ensures ServiceNames[j] != "None"
    {
      assert |ServiceNames[j]| != 4;
    }
  }

  /** The decoded services are `["None"]` exactly when none of the nine bits
      is set, and otherwise name each class whose bit is set and no other. */
  lemma DecodedServices(cod: int)
    ensures DecodeClassOfDevice(cod).services == ["None"] <==>
      forall j :: 0 <= j < |ServiceNames| ==> !ServiceBitSet(cod, j)
    ensures DecodeClassOfDevice(cod).services != ["None"] ==>
      forall j :: 0 <= j < |ServiceNames| ==> (ServiceNames[j] in DecodeClassOfDevice(cod).services <==> ServiceBitSet(cod, j))
  {
    var listed := Listed(ServiceNames, cod, 0);
    ServiceNamesDistinct();
    ListedEmptyIffNoneSet(ServiceNames, cod, 0);
    ListedFromTable(ServiceNames, cod, 0, "None");
    forall j | 0 <= j < |ServiceNames|
      ensures ServiceNames[j] in listed <==> ServiceBitSet(cod, j)
    {
      ListedIffSet(ServiceNames, cod, 0, j);
    }
  }

  /** `str(n)` is "0" only for 0. */
  lemma DecimalZero(n: nat)
    ensures Decimal(n) == "0" <==> n == 0
  {
  }

  // ---------------------------------------------------------------------
  // Scanner results and the default filter
  // ---------------------------------------------------------------------

  /** One device of an inquiry: address, looked-up name (which may be
      missing) and decoded Class of Device. */
  datatype ScannerResult = ScannerResult(address: string, name: Option<string>, classOfDevice: Cod)

  /** `__default_filter`: a wearable whose minor class has no name. */
  predicate DefaultFilter(result: ScannerResult): (r: bool)
    ensures r ==> result.classOfDevice.majorClass == MajorClasses[0x07]
  {
    result.classOfDevice.majorClass == "Wearable" && result.classOfDevice.minorClass == "Minor code 0"
  }

  /** Only the major class 0x07 is called "Wearable". */
  lemma WearableIsMajorSeven(major: int)
    ensures MajorName(major) == "Wearable" <==> major == 0x07
  {
    if major in MajorClasses && major != 0x07 {
      assert MajorClasses[major] != "Wearable";
    }
  }

  /** On a decoded word, the default filter accepts exactly major class 0x07
      with minor class 0. */
  lemma DefaultFilterAccepts(address: string, name: Option<string>, cod: int)
    ensures DefaultFilter(ScannerResult(address, name, DecodeClassOfDevice(cod))) <==>
      MajorField(cod) == 0x07 && MinorField(cod) == 0
  {
    WearableIsMajorSeven(MajorField(cod));
    var minor := MinorField(cod);
    DecimalZero(minor);
    if MajorField(cod) == 0x07 {
      assert MinorName(0x07, minor) == "Minor code " + Decimal(minor);
      if Decimal(minor) != "0" {
        assert ("Minor code " + Decimal(minor))[11..] == Decimal(minor);
      }
    }
  }

  // ---------------------------------------------------------------------
  // The scanner
  // ---------------------------------------------------------------------

  /** A device as `bluetooth.discover_devices` reports it. */
  datatype Inquired = Inquired(address: string, name: Option<string>, cod: int)

  /** The results of one inquiry, each Class of Device decoded. */
  function Results(found: seq<Inquired>): (r: seq<ScannerResult>)
    ensures |r| == |found|
    ensures forall i :: 0 <= i < |found| ==>
      r[i] == ScannerResult(found[i].address, found[i].name, DecodeClassOfDevice(found[i].cod))
  {
    seq(|found|, i requires 0 <= i < |found| =>
      ScannerResult(found[i].address, found[i].name, DecodeClassOfDevice(found[i].cod)))
  }

  class Scanner {
    var enabled: bool
    var done: bool
    var nearby: Option<seq<ScannerResult>>
    var updated: bool
    var duration: int
    /** The thread is inside an inquiry (it found `enabled` set). */
    var inRound: bool

    /** The scanner is idle, its thread finished or never started, exactly
        when `done` is set; an inquiry is under way only while its thread
        is alive; an update always carries results. */
    ghost predicate Valid()
      reads this
    {
      (inRound ==> !done) && (updated ==> nearby.Some?)
    }

    /** The inquiry length is `int(interval / 1.2)`. */
    constructor(interval: nat)
      ensures Valid()
      ensures !enabled && done && nearby.None? && !updated && !inRound
      ensures duration == interval * 5 / 6
    {
      enabled, done, nearby, updated, inRound := false, true, None, false, false;
      duration := interval * 5 / 6;
    }

    /** `start`: nothing while a thread is alive; otherwise a new thread,
        enabled, with no update yet. */
    method Start()
      requires Valid()
      modifies this
      ensures Valid()
      ensures old(done) ==> enabled && !done && !updated && !inRound && nearby == old(nearby)
      ensures !old(done) ==> unchanged(this)
      ensures duration == old(duration)
    {
      if !done {
        return;
      }
      enabled := true;
      done := false;
      updated := false;
      inRound := false;
    }

    /** `stop`: ask the thread to finish after its current inquiry. */
    method Stop()
      requires Valid()
      modifies this
      ensures Valid()
      ensures !enabled
      ensures done == old(done) && nearby == old(nearby) && updated == old(updated) && inRound == old(inRound)
      ensures duration == old(duration)
    {
      enabled := false;
    }

    /** `get_most_recent`: the latest results once, then None until the next
        inquiry completes. */
    method GetMostRecent() returns (r: Option<seq<ScannerResult>>)
      requires Valid()
      modifies this
      ensures Valid()
      ensures old(updated) ==> r == old(nearby) && r.Some?
      ensures !old(updated) ==> r.None?
      ensures !updated
      ensures enabled == old(enabled) && done == old(done) && nearby == old(nearby) && inRound == old(inRound)
      ensures duration == old(duration)
    {
      if !updated {
        return None;
      }
      updated := false;
      return nearby;
    }

    /** `is_running` as written: it reports `done`. */
    function IsRunning(): (r: bool)
      reads this
      ensures r <==> !Running()
    {
      done
    }

    /** Whether the scan thread is alive, which `is_running` evidently
        means to report. */
    function Running(): (r: bool)
      reads this
      ensures r <==> !done
    {
      !done
    }

    /** The thread tests `enabled` at the top of its loop: it starts an
        inquiry, or it leaves the loop and sets `done`. */
    method LoopCheck()
      requires Valid() && !done && !inRound
      modifies this
      ensures Valid()
      ensures old(enabled) ==> inRound && !done
      ensures !old(enabled) ==> done && !inRound
      ensures enabled == old(enabled) && nearby == old(nearby) && updated == old(updated)
      ensures duration == old(duration)
    {
      if enabled {
        inRound := true;
      } else {
        done := true;
      }
    }

    /** An inquiry ends: its results replace `nearby` and `updated` is set,
        even if `stop` was called meanwhile. */
    method RoundCompleted(found: seq<Inquired>)
      requires Valid() && inRound
      modifies this
      ensures Valid()
      ensures nearby == Some(Results(found)) && updated && !inRound && !done
      ensures enabled == old(enabled) && duration == old(duration)
    {
      nearby := Some(Results(found));
      updated := true;
      inRound := false;
    }
  }

  /** Two `get_most_recent` calls with no inquiry completing in between: the
      latest results, then None. */
  method MostRecentConsumedOnce(s: Scanner) returns (first: Option<seq<ScannerResult>>, second: Option<seq<ScannerResult>>)
    requires s.Valid() && s.updated
    modifies s
    ensures first == old(s.nearby) && first.Some? && second.None?
    ensures s.Valid() && s.nearby == old(s.nearby) && !s.updated
  {
    first := s.GetMostRecent();
    second := s.GetMostRecent();
  }

  /** A started scanner reports that it is not running: `is_running` is the
      opposite of whether the scan thread is alive. */
  method IsRunningAfterStart() returns (reported: bool, alive: bool)
    ensures alive && !reported
  {
    var s := new Scanner(5);
    s.Start();
    reported := s.IsRunning();
    alive := s.Running();
  }

  /** `stop` followed by the thread's next loop check ends the thread; the
      intended `is_running` then reports False. */
  method StopEndsThread(s: Scanner)
    requires s.Valid() && !s.done && !s.inRound
    modifies s
    ensures s.Valid() && !s.Running()
  {
    s.Stop();
    s.LoopCheck();
  }

  // ---------------------------------------------------------------------
  // `ThreespaceBluetoothComClass`
  // ---------------------------------------------------------------------

  /** `name or addr`: the address stands in for a missing or empty name. */
  function DisplayName(address: string, name: Option<string>): (r: string)
    ensures name.Some? && name.value != "" ==> r == name.value
    ensures name.None? || name.value == "" ==> r == address
  {
    if name.Some? && name.value != "" then name.value else address
  }

  /** A com class `auto_detect` yields, before it is opened. */
  datatype Candidate = Candidate(address: string, name: string)

  /** `name or None`: an empty name counts as none. */
  function NameOrNone(name: Option<string>): Option<string> {
    if name.Some? && name.value != "" then name else None
  }

  /** The candidates `auto_detect` yields from a list of results: one per
      result the filter accepts, in order. */
  function Candidates(results: seq<ScannerResult>, filter: ScannerResult -> bool): (r: seq<Candidate>)
    ensures |r| <= |results|
    ensures (forall i :: 0 <= i < |results| ==> filter(results[i])) ==> |r| == |results|
  {
    if results == [] then []
    else
      var rest := Candidates(results[1..], filter);
      var d := results[0];
      if filter(d) then [Candidate(d.address, DisplayName(d.address, NameOrNone(d.name)))] + rest else rest
  }

  /** `auto_detect` once the scanner has been asked for results: nothing
      when there are none, otherwise the candidates the given filter, or
      the default one, picks. */
  method AutoDetect(nearby: Option<seq<ScannerResult>>, filter: Option<ScannerResult -> bool>)
    returns (coms: seq<Candidate>)
    ensures nearby.None? ==> coms == []
    ensures nearby.Some? ==> coms == Candidates(nearby.value, if filter.Some? then filter.value else DefaultFilter)
  {
    var f: ScannerResult -> bool := if filter.Some? then filter.value else DefaultFilter;
    if nearby.None? {
      return [];
    }
    coms := [];
    var results := nearby.value;
    for i := 0 to |results|
      invariant coms + Candidates(results[i..], f) == Candidates(results, f)
    {
      var d := results[i];
      assert results[i..][0] == d && results[i..][1..] == results[i + 1..];
      assert results[i..] != [];
      assert Candidates(results[i..], f) == if f(d)
        then [Candidate(d.address, DisplayName(d.address, NameOrNone(d.name)))] + Candidates(results[i + 1..], f)
        else Candidates(results[i + 1..], f);
      if !f(d) {
        continue;
      }
      var name := NameOrNone(d.name);
      var com := Candidate(d.address, DisplayName(d.address, name));
      assert (coms + [com]) + Candidates(results[i + 1..], f) == coms + ([com] + Candidates(results[i + 1..], f));
      coms := coms + [com];
    }
  }

  /** Every candidate comes from a result the filter accepts, keeps its
      address, and is named by the result's name or else its address; each
      accepted result gives a candidate. */
  lemma {:induction false} CandidatesFiltered(results: seq<ScannerResult>, filter: ScannerResult -> bool)
    ensures forall c :: c in Candidates(results, filter) ==>
      exists d :: d in results && filter(d) && c == Candidate(d.address, DisplayName(d.address, NameOrNone(d.name)))
    ensures forall d :: d in results && filter(d) ==>
      Candidate(d.address, DisplayName(d.address, NameOrNone(d.name))) in Candidates(results, filter)
    decreases |results|
  {
    if results != [] {
      CandidatesFiltered(results[1..], filter);
      forall d | d in results[1..]
        ensures d in results
      {
      }
    }
  }

  /** With the default filter, every candidate is a wearable device whose
      minor class field is 0. */
  lemma DefaultCandidatesAreWearable(found: seq<Inquired>, c: Candidate)
    requires c in Candidates(Results(found), DefaultFilter)
    ensures exists i :: 0 <= i < |found| && found[i].address == c.address && MajorField(found[i].cod) == 0x07 && MinorField(found[i].cod) == 0
  {
    var i := CandidateSource(Results(found), DefaultFilter, c);
    DefaultFilterAccepts(found[i].address, found[i].name, found[i].cod);
  }

  /** The position of a result a candidate came from. */
  lemma {:induction false} CandidateSource(results: seq<ScannerResult>, filter: ScannerResult -> bool, c: Candidate)
    returns (i: nat)
    requires c in Candidates(results, filter)
    ensures i < |results| && filter(results[i]) && results[i].address == c.address
    decreases |results|
  {
    var d := results[0];
    if filter(d) && c == Candidate(d.address, DisplayName(d.address, NameOrNone(d.name))) {
      return 0;
    }
    var j := CandidateSource(results[1..], filter, c);
    i := j + 1;
  }
}
