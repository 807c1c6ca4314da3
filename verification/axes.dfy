/** Sensor axis orders (`AxisOrder`): which physical axis each of the three
    output slots holds and with which sign, written either in xyz notation
    ("xyz", "-xzy") or in compass notation ("ned", "enu"); and the swap of
    vectors and quaternions from one axis order to another.

    Python's negative list indexing and its exceptions are modelled
    explicitly: a failing operation yields `Failure(e)` with the exception it
    raises. Vector components are reals: the swap only permutes them and
    multiplies them by plus or minus one, which floating point does exactly. */
module Axes {
  import opened Wrappers

  /** The exceptions the axis-order code raises. */
  datatype AxisError = KeyError | IndexError | ValueError

  /** `_COMPASS_TO_AXIS`: East/West is x, Up/Down is y, North/South is z. */
  const CompassToAxis: map<char, int> := map['e' := 0, 'w' := 0, 'u' := 1, 'd' := 1, 'n' := 2, 's' := 2]
  /** `_NEGATIVE_COMPASS`: the compass letters that point along a negative axis. */
  const NegativeCompass: string := "wds"
  /** `_AXIS_TO_COMPASS`: per axis, its positive and its negative compass letter. */
  const AxisToCompass: seq<string> := ["ew", "ud", "ns"]
  const AxisLetters: string := "xyz"

  /** Python's `xs[i]` on a list of length `n`: negative indices count from
      the end; `None` is the IndexError. */
  function PyIndex(n: nat, i: int): (r: Option<nat>)
    ensures r.Some? <==> -(n as int) <= i < n
    ensures r.Some? ==> r.value < n && (r.value == i || r.value == n + i)
  {
    if 0 <= i < n then Some(i)
    else if -(n as int) <= i < 0 then Some(n + i)
    else None
  }

  // ---------------------------------------------------------------------
  // Text normalisation (`str.lower` and `str.strip` on ASCII text)
  // ---------------------------------------------------------------------

  function LowerChar(c: char): char {
    if 'A' <= c <= 'Z' then (c as int + 32) as char else c
  }

  /** `s.lower()` for ASCII letters. */
  function Lower(s: string): (r: string)
    ensures |r| == |s|
    ensures forall i :: 0 <= i < |s| ==> r[i] == LowerChar(s[i])
  {
    if s == [] then [] else [LowerChar(s[0])] + Lower(s[1..])
  }

  /** The ASCII characters `str.isspace()` accepts. */
  predicate IsSpace(c: char) {
    c == ' ' || 9 <= c as int <= 13 || 28 <= c as int <= 31
  }

  function StripStart(s: string): (r: nat)
    ensures r <= |s|
    ensures forall i :: 0 <= i < r ==> IsSpace(s[i])
    ensures r < |s| ==> !IsSpace(s[r])
  {
    if s == [] || !IsSpace(s[0]) then 0 else 1 + StripStart(s[1..])
  }

  function StripEnd(s: string): (r: nat)
    ensures r <= |s|
    ensures forall i :: r <= i < |s| ==> IsSpace(s[i])
    ensures 0 < r ==> !IsSpace(s[r - 1])
  {
    if s == [] || !IsSpace(s[|s| - 1]) then |s| else StripEnd(s[..|s| - 1])
  }

  /** `s.strip()`: drop leading and trailing whitespace. */
  function Strip(s: string): (r: string)
    ensures exists i, j :: (0 <= i <= j <= |s| && r == s[i..j] &&
      (forall k :: 0 <= k < i ==> IsSpace(s[k])) && (forall k :: j <= k < |s| ==> IsSpace(s[k])))
    ensures r != [] ==> !IsSpace(r[0]) && !IsSpace(r[|r| - 1])
  {
    var i := StripStart(s);
    var j := StripEnd(s);
    if i == |s| then
      assert s[i..i] == [];
      s[i..i]
    else
      assert !IsSpace(s[i]);
      assert i < j;
      s[i..j]
  }

  /** Text that contains neither upper-case letters nor surrounding blanks is
      left alone by the normalisation `AxisOrder` applies. */
  lemma NormalisedUnchanged(s: string)
    requires forall i :: 0 <= i < |s| ==> !('A' <= s[i] <= 'Z')
    requires s != [] ==> !IsSpace(s[0]) && !IsSpace(s[|s| - 1])
    ensures Strip(Lower(s)) == s
  {
    assert Lower(s) == s;
    if s != [] {
      assert StripStart(s) == 0;
      assert StripEnd(s) == |s|;
    }
  }

  // ---------------------------------------------------------------------
  // Parsing (`_parse_axis_string`)
  // ---------------------------------------------------------------------

  /** The parser's working state: the `order` and `multipliers` lists and the
      slot the next character fills. */
  datatype Slots = Slots(order: seq<int>, multipliers: seq<int>, index: nat)

  const Init: Slots := Slots([0, 1, 2], [1, 1, 1], 0)

  /** xyz notation is used as soon as any of x, y, z occurs. */
  predicate HasXyzLetter(s: string) {
    'x' in s || 'y' in s || 'z' in s
  }

  /** One character of xyz notation: `-` negates the current slot, anything
      else is an axis letter `c - 'x'` that fills the slot and moves on. */
  function XyzStep(st: Slots, c: char): Result<Slots, AxisError> {
    if c == '-' then
      if st.index < |st.multipliers| then Success(st.(multipliers := st.multipliers[st.index := -1]))
      else Failure(IndexError)
    else
      if st.index < |st.order| then
        Success(st.(order := st.order[st.index := c as int - 'x' as int], index := st.index + 1))
      else Failure(IndexError)
  }

  /** One character of compass notation: look the letter up (KeyError when it
      is not a compass letter), store its axis in the slot and negate the slot
      for W, D and S. */
  function CompassStep(st: Slots, c: char): Result<Slots, AxisError> {
    if c !in CompassToAxis then Failure(KeyError)
    else if st.index >= |st.order| then Failure(IndexError)
    else
      var m := if c in NegativeCompass && st.index < |st.multipliers|
               then st.multipliers[st.index := -1] else st.multipliers;
      Success(Slots(st.order[st.index := CompassToAxis[c]], m, st.index + 1))
  }

  function Step(compass: bool, st: Slots, c: char): Result<Slots, AxisError> {
    if compass then CompassStep(st, c) else XyzStep(st, c)
  }

  /** The parser's loop over the characters of `s`, starting from `st`. */
  function Run(compass: bool, st: Slots, s: string): Result<Slots, AxisError>
    decreases |s|
  {
    if s == [] then Success(st)
    else
      match Step(compass, st, s[0])
      case Failure(e) => Failure(e)
      case Success(next) => Run(compass, next, s[1..])
  }

  /** `_parse_axis_string` on already normalised text. */
  function ParsedAxes(axis: string): Result<Slots, AxisError> {
    Run(!HasXyzLetter(axis), Init, axis)
  }

  /** The parse as the source performs it: a loop over the characters. */
  method ParseAxisString(axis: string) returns (r: Result<(seq<int>, seq<int>), AxisError>)
    ensures r.Success? <==> ParsedAxes(axis).Success?
    ensures r.Success? ==> r.value == (ParsedAxes(axis).value.order, ParsedAxes(axis).value.multipliers)
    ensures r.Failure? ==> r.error == ParsedAxes(axis).error
  {
    var compass := !HasXyzLetter(axis);
    var order, multipliers := [0, 1, 2], [1, 1, 1];
    var index := 0;
    for k := 0 to |axis|
      invariant |order| == 3 && |multipliers| == 3
      invariant Run(compass, Slots(order, multipliers, index), axis[k..]) == ParsedAxes(axis)
    {
      var c := axis[k];
      assert axis[k..][1..] == axis[k + 1..];
      if compass {
        if c !in CompassToAxis {
          return Failure(KeyError);
        }
        if index >= |order| {
          return Failure(IndexError);
        }
        order := order[index := CompassToAxis[c]];
        if c in NegativeCompass {
          multipliers := multipliers[index := -1];
        }
        index := index + 1;
      } else if c == '-' {
        if index >= |multipliers| {
          return Failure(IndexError);
        }
        multipliers := multipliers[index := -1];
      } else {
        if index >= |order| {
          return Failure(IndexError);
        }
        order := order[index := c as int - 'x' as int];
        index := index + 1;
      }
    }
    return Success((order, multipliers));
  }

  /** A parse ends with three slots, each multiplier plus or minus one. */
  predicate SignsOnly(m: seq<int>) {
    forall i :: 0 <= i < |m| ==> m[i] == 1 || m[i] == -1
  }

  lemma {:induction false} RunKeepsShape(compass: bool, st: Slots, s: string)
    requires |st.order| == 3 && |st.multipliers| == 3 && SignsOnly(st.multipliers)
    ensures Run(compass, st, s).Success? ==>
      var r := Run(compass, st, s).value;
      |r.order| == 3 && |r.multipliers| == 3 && SignsOnly(r.multipliers)
    decreases |s|
  {
    if s != [] {
      match Step(compass, st, s[0])
      case Failure(_) =>
      case Success(next) => RunKeepsShape(compass, next, s[1..]);
    }
  }

  /** Running the parser over `a + b` runs it over `a`, then over `b`. */
  lemma {:induction false} RunAppend(compass: bool, st: Slots, a: string, b: string)
    ensures Run(compass, st, a + b) ==
      match Run(compass, st, a)
      case Failure(e) => Failure(e)
      case Success(mid) => Run(compass, mid, b)
    decreases |a|
  {
    if a == [] {
      assert a + b == b;
    } else {
      assert (a + b)[0] == a[0];
      assert (a + b)[1..] == a[1..] + b;
      match Step(compass, st, a[0])
      case Failure(_) =>
      case Success(next) => RunAppend(compass, next, a[1..], b);
    }
  }

  // ---------------------------------------------------------------------
  // Compass notation in closed form
  // ---------------------------------------------------------------------

  predicate AllCompass(s: string) {
    forall i :: 0 <= i < |s| ==> s[i] in CompassToAxis
  }

  /** The slots after compass letters `s` filled slots `k`, `k + 1`, ... */
  function CompassOrder(o: seq<int>, s: string, k: nat): (r: seq<int>)
    requires |o| == 3 && AllCompass(s)
    ensures |r| == 3
  {
    seq(3, i requires 0 <= i < 3 => if k <= i < k + |s| then CompassToAxis[s[i - k]] else o[i])
  }

  function CompassSigns(m: seq<int>, s: string, k: nat): (r: seq<int>)
    requires |m| == 3
    ensures |r| == 3
  {
    seq(3, i requires 0 <= i < 3 => if k <= i < k + |s| && s[i - k] in NegativeCompass then -1 else m[i])
  }

  /** Filling slot `k` from the first letter, then the later slots from the
      rest, fills the same slots as all letters from slot `k`. */
  lemma CompassShift(o: seq<int>, m: seq<int>, k: nat, s: string)
    requires |o| == 3 && |m| == 3 && s != [] && AllCompass(s) && k + |s| <= 3
    ensures AllCompass(s[1..])
    ensures CompassOrder(o[k := CompassToAxis[s[0]]], s[1..], k + 1) == CompassOrder(o, s, k)
    ensures CompassSigns(if s[0] in NegativeCompass then m[k := -1] else m, s[1..], k + 1) == CompassSigns(m, s, k)
  {
  }

  /** The compass parser from slot `k`: KeyError at the first non-compass
      letter unless the slots run out before it (IndexError); otherwise each
      letter fixes its slot's axis and sign. */
  lemma {:induction false} CompassRunClosedForm(o: seq<int>, m: seq<int>, k: nat, s: string)
    requires |o| == 3 && |m| == 3 && k <= 3
    ensures Run(true, Slots(o, m, k), s) ==
      if !AllCompass(s[..Min(|s|, 4 - k)]) then Failure(KeyError)
      else if k + |s| > 3 then Failure(IndexError)
      else Success(Slots(CompassOrder(o, s, k), CompassSigns(m, s, k), k + |s|))
    decreases |s|
  {
    if s == [] {
      assert CompassOrder(o, s, k) == o;
      assert CompassSigns(m, s, k) == m;
    } else {
      var c := s[0];
      if c !in CompassToAxis {
        assert !AllCompass(s[..Min(|s|, 4 - k)]) by {
          assert s[..Min(|s|, 4 - k)][0] == c;
        }
      } else if k >= 3 {
        assert AllCompass(s[..Min(|s|, 4 - k)]);
      } else {
        var o' := o[k := CompassToAxis[c]];
        var m' := if c in NegativeCompass then m[k := -1] else m;
        assert Step(true, Slots(o, m, k), c) == Success(Slots(o', m', k + 1));
        CompassRunClosedForm(o', m', k + 1, s[1..]);
        var t := s[1..];
        assert t[..Min(|t|, 4 - (k + 1))] == s[..Min(|s|, 4 - k)][1..];
        assert AllCompass(s[..Min(|s|, 4 - k)]) <==> AllCompass(t[..Min(|t|, 3 - k)]) by {
          var u := s[..Min(|s|, 4 - k)];
          assert u[0] == c;
          assert forall i :: 1 <= i < |u| ==> u[i] == t[..Min(|t|, 3 - k)][i - 1];
        }
        if AllCompass(s[..Min(|s|, 4 - k)]) && k + |s| <= 3 {
          assert AllCompass(s) by {
            assert s[..Min(|s|, 4 - k)] == s;
          }
          CompassShift(o, m, k, s);
        }
      }
    }
  }

  /** `_parse_axis_string` on text without x, y or z. */
  lemma CompassParse(s: string)
    requires !HasXyzLetter(s)
    ensures ParsedAxes(s) ==
      if !AllCompass(s[..Min(|s|, 4)]) then Failure(KeyError)
      else if |s| > 3 then Failure(IndexError)
      else Success(Slots(CompassOrder([0, 1, 2], s, 0), CompassSigns([1, 1, 1], s, 0), |s|))
  {
    CompassRunClosedForm([0, 1, 2], [1, 1, 1], 0, s);
  }

  // ---------------------------------------------------------------------
  // AxisOrder
  // ---------------------------------------------------------------------

  /** An `AxisOrder` object: `order[i]` is the axis held by slot `i` (0 = x,
      1 = y, 2 = z), `multipliers[i]` its sign. Objects are never changed
      after construction. */
  datatype AxisOrder = AxisOrder(order: seq<int>, multipliers: seq<int>, isRightHanded: bool)
  {
    /** Every object the constructor builds has three slots. */
    predicate Shaped() {
      |order| == 3 && |multipliers| == 3
    }
  }

  function CountMisplaced(order: seq<int>, k: nat): (r: nat)
    requires k <= |order|
    ensures r <= k
  {
    if k == 0 then 0 else CountMisplaced(order, k - 1) + (if order[k - 1] != k - 1 then 1 else 0)
  }

  function CountNegatives(m: seq<int>): (r: nat)
    ensures r <= |m|
  {
    if m == [] then 0 else (if m[0] == -1 then 1 else 0) + CountNegatives(m[1..])
  }

  /** `_compute_handedness`: right-handed when exactly two slots hold another
      axis than their own, flipped by an odd number of -1 multipliers. */
  function ComputeHandedness(order: seq<int>, multipliers: seq<int>): (r: bool)
    requires |order| == 3
    ensures CountMisplaced(order, 3) == 0 ==> (r <==> CountNegatives(multipliers) % 2 == 1)
  {
    var rightHanded := CountMisplaced(order, 3) == 2;
    if CountNegatives(multipliers) % 2 == 1 then !rightHanded else rightHanded
  }

  /** The three slots hold x, y and z, each once. */
  predicate IsPermutation(order: seq<int>) {
    |order| == 3 && multiset(order) == multiset{0, 1, 2}
  }

  /** An independent reading of parity: the number of out-of-order pairs. */
  function Inversions(order: seq<int>): nat
    requires |order| == 3
  {
    (if order[0] > order[1] then 1 else 0) + (if order[0] > order[2] then 1 else 0) +
    (if order[1] > order[2] then 1 else 0)
  }

  /** A true permutation holds each axis in exactly one slot. */
  lemma PermutationDistinct(order: seq<int>)
    requires IsPermutation(order)
    ensures forall i :: 0 <= i < 3 ==> 0 <= order[i] <= 2
    ensures forall i, j :: 0 <= i < 3 && 0 <= j < 3 && order[i] == order[j] ==> i == j
    ensures forall v :: 0 <= v <= 2 ==> v in order
  {
    var a, b, c := order[0], order[1], order[2];
    assert order == [a, b, c];
    assert multiset{a, b, c} == multiset{0, 1, 2};
    assert a in multiset{0, 1, 2} && b in multiset{0, 1, 2} && c in multiset{0, 1, 2};
    assert multiset{a, b, c}[a] == 1 && multiset{a, b, c}[b] == 1 && multiset{a, b, c}[c] == 1;
    forall v | 0 <= v <= 2
      ensures v in order
    {
      assert v in multiset(order);
    }
  }

  /** For a true permutation, exactly two slots are out of place when the
      permutation is odd. */
  lemma MisplacedParity(order: seq<int>)
    requires IsPermutation(order)
    ensures (CountMisplaced(order, 3) == 2) == (Inversions(order) % 2 == 1)
  {
    PermutationDistinct(order);
    assert CountMisplaced(order, 1) == (if order[0] != 0 then 1 else 0);
    assert CountMisplaced(order, 2) == CountMisplaced(order, 1) + (if order[1] != 1 then 1 else 0);
    assert CountMisplaced(order, 3) == CountMisplaced(order, 2) + (if order[2] != 2 then 1 else 0);
  }

  /** For a true permutation the code's rule is the textbook one: the frame
      is right-handed exactly when the axes are an odd permutation of x, y, z
      or an odd number of them are negated, but not both. (So "xyz" itself
      counts as left-handed.) */
  lemma HandednessIsParity(order: seq<int>, multipliers: seq<int>)
    requires IsPermutation(order)
    ensures ComputeHandedness(order, multipliers) ==
      ((Inversions(order) % 2 == 1) != (CountNegatives(multipliers) % 2 == 1))
  {
    MisplacedParity(order);
  }

  /** `AxisOrder(axis_string)`: lower-case and strip, parse, then compute the
      handedness. */
  function FromString(axis: string): (r: Result<AxisOrder, AxisError>)
    ensures r.Success? ==> r.value.Shaped() && SignsOnly(r.value.multipliers)
    ensures r.Success? ==> r.value.isRightHanded == ComputeHandedness(r.value.order, r.value.multipliers)
    ensures r.Failure? ==> r.error != ValueError
  {
    var text := Strip(Lower(axis));
    ParsedAxesShape(text);
    match ParsedAxes(text)
    case Failure(e) => Failure(e)
    case Success(st) =>
      Success(AxisOrder(st.order, st.multipliers, ComputeHandedness(st.order, st.multipliers)))
  }

  /** A parse yields three slots with plain signs, and fails only with
      KeyError or IndexError. */
  lemma ParsedAxesShape(text: string)
    ensures ParsedAxes(text).Success? ==>
      |ParsedAxes(text).value.order| == 3 && |ParsedAxes(text).value.multipliers| == 3 &&
      SignsOnly(ParsedAxes(text).value.multipliers)
    ensures ParsedAxes(text).Failure? ==> ParsedAxes(text).error != ValueError
  {
    assert SignsOnly(Init.multipliers) by {
      assert Init.multipliers == [1, 1, 1];
    }
    RunKeepsShape(!HasXyzLetter(text), Init, text);
    RunFailsWithoutValueError(!HasXyzLetter(text), Init, text);
  }

  /** The parser raises KeyError or IndexError, never ValueError. */
  lemma {:induction false} RunFailsWithoutValueError(compass: bool, st: Slots, s: string)
    ensures Run(compass, st, s).Failure? ==> Run(compass, st, s).error != ValueError
    decreases |s|
  {
    if s != [] {
      match Step(compass, st, s[0])
      case Failure(_) =>
      case Success(next) => RunFailsWithoutValueError(compass, next, s[1..]);
    }
  }

  // ---------------------------------------------------------------------
  // Printing (`to_xyz_string`, `to_compass_string`)
  // ---------------------------------------------------------------------

  /** The first `k` slots can be printed: `'xyz'[order[i]]` and
      `_AXIS_TO_COMPASS[order[i]]` do not raise. */
  predicate PrintableUpTo(a: AxisOrder, k: nat)
    requires a.Shaped() && k <= 3
  {
    forall i :: 0 <= i < k ==> PyIndex(3, a.order[i]).Some?
  }

  function SignText(m: int, includePlus: bool): string {
    if m < 0 then "-" else if includePlus then "+" else ""
  }

  /** The first `k` slots in xyz notation: each slot's sign, then its letter. */
  function XyzText(a: AxisOrder, includePlus: bool, k: nat): string
    requires a.Shaped() && k <= 3 && PrintableUpTo(a, k)
  {
    if k == 0 then ""
    else
      XyzText(a, includePlus, k - 1) + SignText(a.multipliers[k - 1], includePlus) +
      [AxisLetters[PyIndex(3, a.order[k - 1]).value]]
  }

  /** `to_xyz_string`, or the IndexError of a slot that holds no axis. */
  function XyzString(a: AxisOrder, includePlus: bool): Result<string, AxisError>
    requires a.Shaped()
  {
    if PrintableUpTo(a, 3) then Success(XyzText(a, includePlus, 3)) else Failure(IndexError)
  }

  method ToXyzString(a: AxisOrder, includePlus: bool) returns (r: Result<string, AxisError>)
    requires a.Shaped()
    ensures r == XyzString(a, includePlus)
  {
    var result := "";
    for i := 0 to 3
      invariant PrintableUpTo(a, i) && result == XyzText(a, includePlus, i)
    {
      if a.multipliers[i] < 0 {
        result := result + "-";
      } else if includePlus {
        result := result + "+";
      }
      var j := PyIndex(3, a.order[i]);
      if j.None? {
        return Failure(IndexError);
      }
      result := result + [AxisLetters[j.value]];
    }
    return Success(result);
  }

  /** The compass letter of one slot: the axis's positive or negative letter. */
  function CompassLetter(a: AxisOrder, i: nat): char
    requires a.Shaped() && i < 3 && PyIndex(3, a.order[i]).Some?
  {
    AxisToCompass[PyIndex(3, a.order[i]).value][if a.multipliers[i] >= 0 then 0 else 1]
  }

  function CompassText(a: AxisOrder, k: nat): (t: string)
    requires a.Shaped() && k <= 3 && PrintableUpTo(a, k)
    ensures |t| == k && forall i :: 0 <= i < k ==> t[i] == CompassLetter(a, i)
  {
    if k == 0 then "" else CompassText(a, k - 1) + [CompassLetter(a, k - 1)]
  }

  /** `to_compass_string`, or the IndexError of a slot that holds no axis. */
  function CompassString(a: AxisOrder): Result<string, AxisError>
    requires a.Shaped()
  {
    if PrintableUpTo(a, 3) then Success(CompassText(a, 3)) else Failure(IndexError)
  }

  method ToCompassString(a: AxisOrder) returns (r: Result<string, AxisError>)
    requires a.Shaped()
    ensures r == CompassString(a)
  {
    var result := "";
    for i := 0 to 3
      invariant PrintableUpTo(a, i) && result == CompassText(a, i)
    {
      var idx := if a.multipliers[i] >= 0 then 0 else 1;
      var j := PyIndex(3, a.order[i]);
      if j.None? {
        return Failure(IndexError);
      }
      result := result + [AxisToCompass[j.value][idx]];
    }
    return Success(result);
  }

  // ---------------------------------------------------------------------
  // Printing and parsing back
  // ---------------------------------------------------------------------

  /** Every slot holds one of the three axes and a sign, and the handedness
      is the one the constructor computes: the objects `to_xyz_string` and
      `to_compass_string` can print. */
  predicate Canonical(a: AxisOrder) {
    a.Shaped() && (forall i :: 0 <= i < 3 ==> 0 <= a.order[i] <= 2) && SignsOnly(a.multipliers) &&
    a.isRightHanded == ComputeHandedness(a.order, a.multipliers)
  }

  /** xyz text is made of signs and axis letters and ends with a letter. */
  lemma {:induction false} XyzTextChars(a: AxisOrder, includePlus: bool, k: nat)
    requires a.Shaped() && k <= 3 && PrintableUpTo(a, k)
    ensures var t := XyzText(a, includePlus, k);
      (forall i :: 0 <= i < |t| ==> t[i] in "-+xyz") && (k > 0 ==> |t| > 0 && t[|t| - 1] in AxisLetters)
  {
    if k > 0 {
      XyzTextChars(a, includePlus, k - 1);
    }
  }

  /** Full xyz text is already normalised and holds an xyz letter, so the
      parser reads it in xyz notation. */
  lemma XyzTextNormalised(a: AxisOrder, includePlus: bool)
    requires a.Shaped() && PrintableUpTo(a, 3)
    ensures Strip(Lower(XyzText(a, includePlus, 3))) == XyzText(a, includePlus, 3)
    ensures HasXyzLetter(XyzText(a, includePlus, 3))
  {
    var t := XyzText(a, includePlus, 3);
    XyzTextChars(a, includePlus, 3);
    NormalisedUnchanged(t);
    assert t[|t| - 1] in t;
  }

  /** One slot's text, `-x` or `x` and so on, fills that slot. */
  lemma XyzSlotRuns(st: Slots, m: int, o: int)
    requires |st.order| == 3 && |st.multipliers| == 3 && st.index < 3 && 0 <= o <= 2
    ensures Run(false, st, SignText(m, false) + [AxisLetters[o]]) ==
      Success(Slots(st.order[st.index := o],
                    if m < 0 then st.multipliers[st.index := -1] else st.multipliers,
                    st.index + 1))
  {
    var c := AxisLetters[o];
    assert c == (if o == 0 then 'x' else if o == 1 then 'y' else 'z');
    var st1 := if m < 0 then st.(multipliers := st.multipliers[st.index := -1]) else st;
    var done := Slots(st.order[st.index := o], st1.multipliers, st.index + 1);
    assert XyzStep(st1, c) == Success(done);
    assert Run(false, st1, [c]) == Run(false, done, [c][1..]);
    if m < 0 {
      var text := SignText(m, false) + [c];
      assert text[0] == '-' && text[1..] == [c];
      assert XyzStep(st, '-') == Success(st1);
    } else {
      assert SignText(m, false) + [c] == [c];
    }
  }

  /** Filling slot `k - 1` of a partly filled list. */
  lemma FillOne(xs: seq<int>, defaults: seq<int>, k: nat)
    requires |xs| == 3 && |defaults| == 3 && 0 < k <= 3
    ensures (xs[..k - 1] + defaults[k - 1..])[k - 1 := xs[k - 1]] == xs[..k] + defaults[k..]
    ensures xs[k - 1] == defaults[k - 1] ==> xs[..k - 1] + defaults[k - 1..] == xs[..k] + defaults[k..]
  {
    var before, after := xs[..k - 1] + defaults[k - 1..], xs[..k] + defaults[k..];
    assert forall i :: 0 <= i < 3 ==> after[i] == if i < k then xs[i] else defaults[i];
    assert forall i :: 0 <= i < 3 ==> before[i] == if i < k - 1 then xs[i] else defaults[i];
  }

  lemma FillAll(xs: seq<int>, defaults: seq<int>)
    requires |xs| == 3 && |defaults| == 3
    ensures xs[..3] + defaults[3..] == xs
  {
    assert defaults[3..] == [];
  }

  /** Parsing the first `k` printed slots fills exactly those slots. */
  lemma {:induction false} XyzTextRuns(a: AxisOrder, k: nat)
    requires Canonical(a) && k <= 3
    ensures PrintableUpTo(a, k)
    ensures Run(false, Init, XyzText(a, false, k)) ==
      Success(Slots(a.order[..k] + [0, 1, 2][k..], a.multipliers[..k] + [1, 1, 1][k..], k))
  {
    if k > 0 {
      XyzTextRuns(a, k - 1);
      var x := XyzText(a, false, k - 1);
      var sign := SignText(a.multipliers[k - 1], false);
      var letter := [AxisLetters[a.order[k - 1]]];
      assert XyzText(a, false, k) == x + (sign + letter);
      RunAppend(false, Init, x, sign + letter);
      var st := Slots(a.order[..k - 1] + [0, 1, 2][k - 1..], a.multipliers[..k - 1] + [1, 1, 1][k - 1..], k - 1);
      XyzSlotRuns(st, a.multipliers[k - 1], a.order[k - 1]);
      FillOne(a.order, [0, 1, 2], k);
      FillOne(a.multipliers, [1, 1, 1], k);
    } else {
      assert a.order[..0] + [0, 1, 2][0..] == Init.order;
      assert a.multipliers[..0] + [1, 1, 1][0..] == Init.multipliers;
    }
  }

  /** `to_xyz_string()` then `AxisOrder(...)` gives back the same object. */
  lemma XyzRoundTrip(a: AxisOrder)
    requires Canonical(a)
    ensures XyzString(a, false).Success?
    ensures FromString(XyzString(a, false).value) == Success(a)
  {
    XyzTextRuns(a, 3);
    var t := XyzText(a, false, 3);
    assert XyzString(a, false) == Success(t);
    XyzTextNormalised(a, false);
    FillAll(a.order, [0, 1, 2]);
    FillAll(a.multipliers, [1, 1, 1]);
    assert ParsedAxes(t) == Success(Slots(a.order, a.multipliers, 3));
    ParsesTo(t, a);
  }

  /** Normalised text that parses to a canonical order's slots builds that order. */
  lemma ParsesTo(t: string, a: AxisOrder)
    requires Canonical(a) && Strip(Lower(t)) == t
    requires ParsedAxes(t) == Success(Slots(a.order, a.multipliers, 3))
    ensures FromString(t) == Success(a)
  {
  }

  /** A compass letter names its axis and its direction. */
  lemma CompassLetterReads(a: AxisOrder, i: nat)
    requires Canonical(a) && i < 3
    ensures PyIndex(3, a.order[i]).Some?
    ensures CompassLetter(a, i) in CompassToAxis && CompassToAxis[CompassLetter(a, i)] == a.order[i]
    ensures CompassLetter(a, i) in NegativeCompass <==> a.multipliers[i] == -1
    ensures CompassLetter(a, i) !in AxisLetters && !IsSpace(CompassLetter(a, i))
  {
  }

  /** Each letter of a canonical order's compass text names its slot's axis
      and sign, and none is an xyz letter, an upper-case letter or a space. */
  lemma CompassTextLetters(a: AxisOrder)
    requires Canonical(a) && PrintableUpTo(a, 3)
    ensures |CompassText(a, 3)| == 3 && AllCompass(CompassText(a, 3))
    ensures forall i :: 0 <= i < 3 ==> CompassToAxis[CompassText(a, 3)[i]] == a.order[i]
    ensures forall i :: 0 <= i < 3 ==> (CompassText(a, 3)[i] in NegativeCompass <==> a.multipliers[i] == -1)
    ensures !HasXyzLetter(CompassText(a, 3))
    ensures Strip(Lower(CompassText(a, 3))) == CompassText(a, 3)
  {
    var t := CompassText(a, 3);
    forall i | 0 <= i < 3
      ensures t[i] in CompassToAxis && CompassToAxis[t[i]] == a.order[i]
      ensures (t[i] in NegativeCompass <==> a.multipliers[i] == -1)
      ensures t[i] != 'x' && t[i] != 'y' && t[i] != 'z' && !('A' <= t[i] <= 'Z') && !IsSpace(t[i])
    {
      CompassLetterReads(a, i);
    }
    NormalisedUnchanged(t);
  }

  /** The three compass letters of a canonical order fill all three slots
      with its axes and signs. */
  lemma CompassSlotsFilled(a: AxisOrder)
    requires Canonical(a) && PrintableUpTo(a, 3)
    ensures |CompassText(a, 3)| == 3 && AllCompass(CompassText(a, 3))
    ensures CompassOrder([0, 1, 2], CompassText(a, 3), 0) == a.order
    ensures CompassSigns([1, 1, 1], CompassText(a, 3), 0) == a.multipliers
  {
    CompassTextLetters(a);
  }

  /** Compass text of at most three letters parses in closed form. */
  lemma CompassParseComplete(s: string)
    requires !HasXyzLetter(s) && |s| <= 3 && AllCompass(s)
    ensures ParsedAxes(s) == Success(Slots(CompassOrder([0, 1, 2], s, 0), CompassSigns([1, 1, 1], s, 0), |s|))
  {
    CompassParse(s);
    assert s[..Min(|s|, 4)] == s;
  }

  /** Compass text of a canonical order is already normalised and parses
      back to the order's slots. */
  lemma CompassTextParses(a: AxisOrder)
    requires Canonical(a) && PrintableUpTo(a, 3)
    ensures Strip(Lower(CompassText(a, 3))) == CompassText(a, 3)
    ensures ParsedAxes(CompassText(a, 3)) == Success(Slots(a.order, a.multipliers, 3))
  {
    CompassTextLetters(a);
    CompassSlotsFilled(a);
    CompassParseComplete(CompassText(a, 3));
  }

  /** `to_compass_string()` then `AxisOrder(...)` gives back the same object. */
  lemma CompassRoundTrip(a: AxisOrder)
    requires Canonical(a)
    ensures CompassString(a).Success?
    ensures FromString(CompassString(a).value) == Success(a)
  {
    forall i | 0 <= i < 3
      ensures PyIndex(3, a.order[i]).Some?
    {
      CompassLetterReads(a, i);
    }
    CompassTextParses(a);
    ParsesTo(CompassText(a, 3), a);
  }

  /** How many characters of `s` are not a minus sign: each one fills a slot. */
  function NonMinus(s: string): nat {
    if s == [] then 0 else (if s[0] == '-' then 0 else 1) + NonMinus(s[1..])
  }

  lemma {:induction false} NonMinusAppend(a: string, b: string)
    ensures NonMinus(a + b) == NonMinus(a) + NonMinus(b)
  {
    if a == [] {
      assert a + b == b;
    } else {
      assert (a + b)[1..] == a[1..] + b;
      NonMinusAppend(a[1..], b);
    }
  }

  /** xyz text that tries to fill more slots than are left raises IndexError. */
  lemma {:induction false} XyzOverflow(st: Slots, s: string)
    requires |st.order| == 3 && |st.multipliers| == 3 && st.index <= 3 && st.index + NonMinus(s) > 3
    ensures Run(false, st, s) == Failure(IndexError)
    decreases |s|
  {
    if st.index < 3 {
      match XyzStep(st, s[0])
      case Success(next) => XyzOverflow(next, s[1..]);
      case Failure(_) =>
    }
  }

  /** Each `+` printed with `include_plus` is one more character that fills a slot. */
  lemma {:induction false} XyzTextPlusCount(a: AxisOrder, k: nat)
    requires Canonical(a) && k <= 3
    ensures PrintableUpTo(a, k)
    ensures NonMinus(XyzText(a, true, k)) >= k
    ensures forall i :: 0 <= i < k && a.multipliers[i] >= 0 ==> NonMinus(XyzText(a, true, k)) > k
  {
    if k > 0 {
      XyzTextPlusCount(a, k - 1);
      var x := XyzText(a, true, k - 1);
      var sign := SignText(a.multipliers[k - 1], true);
      var letter := [AxisLetters[a.order[k - 1]]];
      NonMinusAppend(x + sign, letter);
      NonMinusAppend(x, sign);
      assert NonMinus(letter) == 1;
      assert a.multipliers[k - 1] >= 0 ==> NonMinus(sign) == 1;
    }
  }

  /** The `include_plus` form of an order with any positive slot does not
      parse back: the parser reads `+` as a fourth axis letter. */
  lemma IncludePlusDoesNotReparse(a: AxisOrder)
    requires Canonical(a) && exists i :: 0 <= i < 3 && a.multipliers[i] >= 0
    ensures XyzString(a, true).Success?
    ensures FromString(XyzString(a, true).value) == Failure(IndexError)
  {
    XyzTextPlusCount(a, 3);
    var i :| 0 <= i < 3 && a.multipliers[i] >= 0;
    var t := XyzText(a, true, 3);
    assert NonMinus(t) > 3;
    XyzTextNormalised(a, true);
    XyzOverflow(Init, t);
  }

  /** The order "xyz" itself: x, y, z in place, no negation. */
  const XyzOrder: AxisOrder := AxisOrder([0, 1, 2], [1, 1, 1], false)

  lemma XyzOrderCanonical()
    ensures Canonical(XyzOrder)
  {
    var a := XyzOrder;
    assert CountMisplaced(a.order, 1) == 0 && CountMisplaced(a.order, 2) == 0 && CountMisplaced(a.order, 3) == 0;
    assert [1, 1, 1][1..] == [1, 1] && [1, 1][1..] == [1];
    assert CountNegatives([1]) == 0 && CountNegatives([1, 1]) == 0 && CountNegatives([1, 1, 1]) == 0;
  }

  /** "xyz" parses to the identity order, which the code's rule makes
      left-handed (the class documentation's example says right-handed). */
  lemma XyzIsLeftHanded()
    ensures FromString("xyz") == Success(XyzOrder)
    ensures !XyzOrder.isRightHanded
  {
    XyzOrderCanonical();
    XyzOrderPrints();
    XyzRoundTrip(XyzOrder);
  }

  lemma XyzOrderPrints()
    ensures XyzString(XyzOrder, false) == Success("xyz")
  {
    assert XyzText(XyzOrder, false, 1) == "x";
    assert XyzText(XyzOrder, false, 2) == "xy";
    assert XyzText(XyzOrder, false, 3) == "xyz";
  }

  /** "xyz" in compass notation is "eun". */
  lemma XyzInCompass()
    ensures CompassString(XyzOrder) == Success("eun")
  {
    XyzOrderCanonical();
    assert CompassText(XyzOrder, 1) == "e";
    assert CompassText(XyzOrder, 2) == "eu";
    assert CompassText(XyzOrder, 3) == "eun";
  }

  /** The `include_plus` form of "xyz" is "+x+y+z", which does not parse back. */
  lemma PlusFormOfXyz()
    ensures XyzString(XyzOrder, true) == Success("+x+y+z")
    ensures FromString("+x+y+z") == Failure(IndexError)
  {
    XyzOrderCanonical();
    assert XyzText(XyzOrder, true, 1) == "+x";
    assert XyzText(XyzOrder, true, 2) == "+x+y";
    assert XyzText(XyzOrder, true, 3) == "+x+y+z";
    IncludePlusDoesNotReparse(XyzOrder);
  }

  // ---------------------------------------------------------------------
  // Equality (`__eq__`) and `from_order_and_multipliers`
  // ---------------------------------------------------------------------

  /** The right-hand operand of `==`: a string, another `AxisOrder`, or any
      other object. */
  datatype Operand = Text(text: string) | Axes(axes: AxisOrder) | OtherObject

  predicate SameSlots(a: AxisOrder, b: AxisOrder) {
    a.order == b.order && a.multipliers == b.multipliers
  }

  /** `__eq__` as written: a string operand is parsed first, but only
      ValueError and TypeError are caught, so the KeyError or IndexError the
      parser raises escapes from `==`. */
  function EqualsAsWritten(a: AxisOrder, other: Operand): Result<bool, AxisError> {
    match other
    case Text(s) =>
      (match FromString(s)
       case Failure(e) => if e == ValueError then Success(false) else Failure(e)
       case Success(b) => Success(SameSlots(a, b)))
    case Axes(b) => Success(SameSlots(a, b))
    case OtherObject => Success(false)
  }

  /** Comparing with a string that does not parse raises instead of
      answering False. */
  lemma EqualsAsWrittenRaises(a: AxisOrder, s: string)
    requires FromString(s).Failure?
    ensures EqualsAsWritten(a, Text(s)) == Failure(FromString(s).error)
  {
  }

  /** "abc" is neither xyz nor compass notation: `AxisOrder('xyz') == 'abc'`
      raises KeyError. */
  lemma EqualsAsWrittenCounterexample()
    ensures EqualsAsWritten(XyzOrder, Text("abc")) == Failure(KeyError)
  {
    AbcDoesNotParse();
  }

  /** "abc" is already normalised and the compass parser stops at its 'a'. */
  lemma AbcDoesNotParse()
    ensures FromString("abc") == Failure(KeyError)
  {
    NormalisedUnchanged("abc");
    assert !HasXyzLetter("abc");
    assert Step(true, Init, 'a') == Failure(KeyError);
    assert ParsedAxes("abc") == Failure(KeyError);
  }

  /** `__eq__` as evidently intended: a string that does not parse is simply
      not equal. */
  function Equals(a: AxisOrder, other: Operand): (r: bool)
    ensures other.Text? && FromString(other.text).Failure? ==> !r
    ensures other.OtherObject? ==> !r
  {
    match other
    case Text(s) => FromString(s).Success? && SameSlots(a, FromString(s).value)
    case Axes(b) => SameSlots(a, b)
    case OtherObject => false
  }

  /** The corrected comparison never raises, agrees with the written one
      whenever that answers, compares objects by order and multipliers only,
      and a canonical object equals its own printed forms. */
  lemma EqualsAgrees(a: AxisOrder, other: Operand)
    ensures EqualsAsWritten(a, other).Success? ==> Equals(a, other) == EqualsAsWritten(a, other).value
    ensures EqualsAsWritten(a, other).Failure? ==> other.Text? && !Equals(a, other)
  {
  }

  lemma EqualsIsEquivalence(a: AxisOrder, b: AxisOrder, c: AxisOrder)
    ensures Equals(a, Axes(a))
    ensures Equals(a, Axes(b)) == Equals(b, Axes(a))
    ensures Equals(a, Axes(b)) && Equals(b, Axes(c)) ==> Equals(a, Axes(c))
  {
  }

  lemma EqualsOwnText(a: AxisOrder)
    requires Canonical(a)
    ensures XyzString(a, false).Success? && Equals(a, Text(XyzString(a, false).value))
    ensures CompassString(a).Success? && Equals(a, Text(CompassString(a).value))
  {
    XyzRoundTrip(a);
    CompassRoundTrip(a);
  }

  /** `from_order_and_multipliers`: print the three slots in xyz notation (a
      minus sign for every negative multiplier), then parse that text. */
  function FromOrderAndMultipliers(order: seq<int>, multipliers: seq<int>): (r: Result<AxisOrder, AxisError>)
    ensures |order| < 3 || |multipliers| < 3 ==> r == Failure(IndexError)
    ensures r.Success? ==> r.value.Shaped() && r.value.isRightHanded == ComputeHandedness(r.value.order, r.value.multipliers)
  {
    if |order| < 3 || |multipliers| < 3 then Failure(IndexError)
    else
      match XyzString(AxisOrder(order[..3], multipliers[..3], false), false)
      case Failure(e) => Failure(e)
      case Success(text) => FromString(text)
  }

  /** Two objects whose slots name the same letters with the same signs print alike. */
  lemma {:induction false} XyzTextAlike(a: AxisOrder, b: AxisOrder, k: nat)
    requires a.Shaped() && b.Shaped() && k <= 3 && PrintableUpTo(a, k) && PrintableUpTo(b, k)
    requires forall i :: 0 <= i < k ==> PyIndex(3, a.order[i]) == PyIndex(3, b.order[i])
    requires forall i :: 0 <= i < k ==> (a.multipliers[i] < 0 <==> b.multipliers[i] < 0)
    ensures XyzText(a, false, k) == XyzText(b, false, k)
  {
    if k > 0 {
      XyzTextAlike(a, b, k - 1);
    }
  }

  /** The object built from explicit lists: the first three entries count,
      an order entry `o` in -3..2 means axis `o mod 3` (Python's negative
      indexing), and any negative multiplier means -1, any other +1. */
  lemma FromOrderAndMultipliersBuilds(order: seq<int>, multipliers: seq<int>)
    requires |order| >= 3 && |multipliers| >= 3
    requires forall i :: 0 <= i < 3 ==> -3 <= order[i] <= 2
    ensures var o := seq(3, i requires 0 <= i < 3 => order[i] % 3);
      var m := seq(3, i requires 0 <= i < 3 => if multipliers[i] < 0 then -1 else 1);
      FromOrderAndMultipliers(order, multipliers) == Success(AxisOrder(o, m, ComputeHandedness(o, m)))
  {
    var o := seq(3, i requires 0 <= i < 3 => order[i] % 3);
    var m := seq(3, i requires 0 <= i < 3 => if multipliers[i] < 0 then -1 else 1);
    var given := AxisOrder(order[..3], multipliers[..3], false);
    var b := AxisOrder(o, m, ComputeHandedness(o, m));
    assert Canonical(b);
    assert forall i :: 0 <= i < 3 ==> PyIndex(3, b.order[i]) == Some(o[i]);
    XyzTextAlike(given, b, 3);
    XyzRoundTrip(b);
  }

  /** Out-of-range entries make the printing step raise. */
  lemma FromOrderAndMultipliersRejects(order: seq<int>, multipliers: seq<int>)
    requires |order| < 3 || |multipliers| < 3 || exists i :: 0 <= i < 3 && !(-3 <= order[i] <= 2)
    ensures FromOrderAndMultipliers(order, multipliers) == Failure(IndexError)
  {
    if |order| >= 3 && |multipliers| >= 3 {
      var i :| 0 <= i < 3 && !(-3 <= order[i] <= 2);
      var given := AxisOrder(order[..3], multipliers[..3], false);
      assert PyIndex(3, given.order[i]).None?;
      assert !PrintableUpTo(given, 3);
    }
  }

  // ---------------------------------------------------------------------
  // Swapping vectors and quaternions
  // ---------------------------------------------------------------------

  /** An axis order argument: an `AxisOrder` object or a string to parse. */
  datatype AxisSpec = Given(axes: AxisOrder) | Named(text: string)
  {
    predicate Shaped() {
      Given? ==> axes.Shaped()
    }
  }

  function Resolve(spec: AxisSpec): (r: Result<AxisOrder, AxisError>)
    requires spec.Shaped()
    ensures r.Success? ==> r.value.Shaped()
    ensures spec.Given? ==> r == Success(spec.axes)
  {
    match spec
    case Given(a) => Success(a)
    case Named(s) => FromString(s)
  }

  /** `list.index(v)`: the first position holding `v`; `None` is the ValueError. */
  function FirstIndex(xs: seq<int>, v: int): (r: Option<nat>)
    ensures r.Some? ==> r.value < |xs| && xs[r.value] == v
    ensures r.None? <==> v !in xs
  {
    if xs == [] then None
    else if xs[0] == v then Some(0)
    else
      match FirstIndex(xs[1..], v)
      case None => None
      case Some(j) => Some(j + 1)
  }

  /** Every axis the target order names occurs in the current order. */
  predicate Findable(current: AxisOrder, target: AxisOrder)
    requires target.Shaped()
  {
    forall i :: 0 <= i < 3 ==> target.order[i] in current.order
  }

  /** A component times a multiplier, with the two signs spelled out so that
      reasoning about them stays linear. */
  function Scale(x: real, m: int): real {
    if m == 1 then x else if m == -1 then -x else x * m as real
  }

  /** `Scale` is plain multiplication. */
  lemma ScaleIsProduct(x: real, m: int)
    ensures Scale(x, m) == x * m as real
  {
  }

  /** Slot `i` of the swapped vector before any handedness negation: the
      component of the current order that holds the same axis, its sign
      undone and the target sign applied. */
  function Gathered(vec: seq<real>, current: AxisOrder, target: AxisOrder, i: nat): real
    requires |vec| >= 3 && current.Shaped() && target.Shaped() && i < 3
    requires target.order[i] in current.order
  {
    var k := FirstIndex(current.order, target.order[i]).value;
    Scale(Scale(vec[k], current.multipliers[k]), target.multipliers[i])
  }

  /** The swapped vector, negated when handedness changes and that is asked for. */
  function SwappedComponents(vec: seq<real>, current: AxisOrder, target: AxisOrder, negate: bool): (r: seq<real>)
    requires |vec| >= 3 && current.Shaped() && target.Shaped() && Findable(current, target)
    ensures |r| == 3
  {
    var flip := negate && current.isRightHanded != target.isRightHanded;
    seq(3, i requires 0 <= i < 3 =>
      if flip then -Gathered(vec, current, target, i) else Gathered(vec, current, target, i))
  }

  /** `[-v for v in vec]`. */
  function Negated(vec: seq<real>): (r: seq<real>)
    ensures |r| == |vec| && forall i :: 0 <= i < |vec| ==> r[i] == -vec[i]
  {
    seq(|vec|, i requires 0 <= i < |vec| => -vec[i])
  }

  /** Gathered slots, negated when handedness changes and that is asked
      for, are the swapped vector. */
  lemma GatheredSwap(vec: seq<real>, current: AxisOrder, target: AxisOrder, negate: bool, g: seq<real>)
    requires |vec| >= 3 && current.Shaped() && target.Shaped() && Findable(current, target)
    requires |g| == 3 && forall j :: 0 <= j < 3 ==> g[j] == Gathered(vec, current, target, j)
    ensures (if negate && current.isRightHanded != target.isRightHanded then Negated(g) else g)
      == SwappedComponents(vec, current, target, negate)
  {
    var r := SwappedComponents(vec, current, target, negate);
    if negate && current.isRightHanded != target.isRightHanded {
      assert forall j :: 0 <= j < 3 ==> Negated(g)[j] == r[j];
    } else {
      assert forall j :: 0 <= j < 3 ==> g[j] == r[j];
    }
  }

  /** `swap_vector_axes` once both orders are known: IndexError for a vector
      shorter than three, ValueError for an axis the current order lacks. */
  function SwappedBetween(vec: seq<real>, current: AxisOrder, target: AxisOrder, negate: bool): (r: Result<seq<real>, AxisError>)
    requires current.Shaped() && target.Shaped()
    ensures r.Success? <==> |vec| >= 3 && Findable(current, target)
    ensures r.Success? ==> |r.value| == 3
  {
    if |vec| < 3 then Failure(IndexError)
    else if !Findable(current, target) then Failure(ValueError)
    else Success(SwappedComponents(vec, current, target, negate))
  }

  /** `swap_vector_axes`: resolve both orders (parse errors first), then swap. */
  function SwappedVector(vec: seq<real>, current: AxisSpec, target: AxisSpec, negate: bool): (r: Result<seq<real>, AxisError>)
    requires current.Shaped() && target.Shaped()
    ensures r.Success? ==> |vec| >= 3 && |r.value| == 3
  {
    match Resolve(current)
    case Failure(e) => Failure(e)
    case Success(cur) =>
      match Resolve(target)
      case Failure(e) => Failure(e)
      case Success(tgt) => SwappedBetween(vec, cur, tgt, negate)
  }

  method SwapVectorAxes(vec: seq<real>, current: AxisSpec, target: AxisSpec, negateOnHandednessChange: bool)
    returns (r: Result<seq<real>, AxisError>)
    requires current.Shaped() && target.Shaped()
    ensures r == SwappedVector(vec, current, target, negateOnHandednessChange)
  {
    var cur, tgt;
    match Resolve(current) {
      case Failure(e) => return Failure(e);
      case Success(a) => cur := a;
    }
    match Resolve(target) {
      case Failure(e) => return Failure(e);
      case Success(a) => tgt := a;
    }
    r := SwapBetween(vec, cur, tgt, negateOnHandednessChange);
  }

  /** The body of `swap_vector_axes` after both orders are resolved. */
  method SwapBetween(vec: seq<real>, cur: AxisOrder, tgt: AxisOrder, negateOnHandednessChange: bool)
    returns (r: Result<seq<real>, AxisError>)
    requires cur.Shaped() && tgt.Shaped()
    ensures r == SwappedBetween(vec, cur, tgt, negateOnHandednessChange)
  {
    if |vec| < 3 {
      return Failure(IndexError);
    }
    // Undo the old negations.
    var base := seq(3, i requires 0 <= i < 3 => Scale(vec[i], cur.multipliers[i]));
    // Swap positions and apply the new multipliers.
    var newVec := [0.0, 0.0, 0.0];
    for i := 0 to 3
      invariant |newVec| == 3
      invariant forall j :: 0 <= j < i ==> tgt.order[j] in cur.order
      invariant forall j :: 0 <= j < i ==> tgt.order[j] in cur.order && newVec[j] == Gathered(vec, cur, tgt, j)
    {
      var k := FirstIndex(cur.order, tgt.order[i]);
      if k.None? {
        return Failure(ValueError);
      }
      newVec := newVec[i := base[k.value]];
      newVec := newVec[i := Scale(newVec[i], tgt.multipliers[i])];
    }
    GatheredSwap(vec, cur, tgt, negateOnHandednessChange, newVec);
    // If handedness changed and that is asked for, negate the vector.
    if negateOnHandednessChange && cur.isRightHanded != tgt.isRightHanded {
      newVec := Negated(newVec);
    }
    return Success(newVec);
  }

  // ---------------------------------------------------------------------
  // Properties of swapping
  // ---------------------------------------------------------------------

  /** In a permutation, looking up the axis of slot `i` finds slot `i`. */
  lemma FirstIndexOfOwnSlot(order: seq<int>, i: nat)
    requires IsPermutation(order) && i < 3
    ensures FirstIndex(order, order[i]) == Some(i)
  {
    PermutationDistinct(order);
  }

  /** Scaling by a sign twice gives the number back, also through a negation. */
  lemma SignsCancel(x: real, a: int, b: int)
    requires a == 1 || a == -1
    requires b == 1 || b == -1
    ensures Scale(Scale(Scale(Scale(x, a), b), b), a) == x
    ensures Scale(Scale(-Scale(Scale(x, a), b), b), a) == -x
  {
  }

  /** Orders that can be swapped between: canonical and true permutations. */
  predicate Proper(a: AxisOrder) {
    Canonical(a) && IsPermutation(a.order)
  }

  /** Swapping a vector into its own order gives its first three components back. */
  lemma SwapIdentity(vec: seq<real>, a: AxisOrder, negate: bool)
    requires |vec| >= 3 && Proper(a)
    ensures SwappedBetween(vec, a, a, negate) == Success(vec[..3])
  {
    PermutationDistinct(a.order);
    assert Findable(a, a);
    var r := SwappedComponents(vec, a, a, negate);
    forall i | 0 <= i < 3
      ensures r[i] == vec[i]
    {
      FirstIndexOfOwnSlot(a.order, i);
      assert a.multipliers[i] == 1 || a.multipliers[i] == -1;
      SignsCancel(vec[i], 1, a.multipliers[i]);
    }
    assert r == vec[..3];
  }

  /** Between two permutations, the target slot holding the axis of current
      slot `i` leads back to slot `i`. */
  lemma LookupBack(current: AxisOrder, target: AxisOrder, i: nat) returns (k: nat)
    requires IsPermutation(current.order) && IsPermutation(target.order) && i < 3
    ensures k < 3 && FirstIndex(target.order, current.order[i]) == Some(k)
    ensures FirstIndex(current.order, target.order[k]) == Some(i)
  {
    PermutationDistinct(current.order);
    PermutationDistinct(target.order);
    k := FirstIndex(target.order, current.order[i]).value;
    FirstIndexOfOwnSlot(current.order, i);
  }

  /** Slot `k` of a swap, when the axis it takes sits in current slot `i`. */
  lemma GatheredFrom(vec: seq<real>, current: AxisOrder, target: AxisOrder, k: nat, i: nat)
    requires |vec| >= 3 && current.Shaped() && target.Shaped() && k < 3
    requires FirstIndex(current.order, target.order[k]) == Some(i)
    ensures Gathered(vec, current, target, k) ==
      Scale(Scale(vec[i], current.multipliers[i]), target.multipliers[k])
  {
  }

  /** Slot `k` of a swapped vector is its gathered slot, negated when
      handedness changes and that is asked for. */
  lemma SwappedAt(vec: seq<real>, current: AxisOrder, target: AxisOrder, negate: bool, k: nat)
    requires |vec| >= 3 && current.Shaped() && target.Shaped() && Findable(current, target) && k < 3
    ensures negate && current.isRightHanded != target.isRightHanded ==>
      SwappedComponents(vec, current, target, negate)[k] == -Gathered(vec, current, target, k)
    ensures !(negate && current.isRightHanded != target.isRightHanded) ==>
      SwappedComponents(vec, current, target, negate)[k] == Gathered(vec, current, target, k)
  {
  }

  /** Slot `i` of the swap there and back. */
  lemma SlotRoundTrip(vec: seq<real>, current: AxisOrder, target: AxisOrder, negate: bool, i: nat)
    requires |vec| >= 3 && current.Shaped() && target.Shaped() && i < 3
    requires IsPermutation(current.order) && IsPermutation(target.order)
    requires SignsOnly(current.multipliers) && SignsOnly(target.multipliers)
    requires Findable(current, target) && Findable(target, current)
    ensures SwappedComponents(SwappedComponents(vec, current, target, negate), target, current, negate)[i] == vec[i]
  {
    var flip := negate && current.isRightHanded != target.isRightHanded;
    var w := SwappedComponents(vec, current, target, negate);
    var k := LookupBack(current, target, i);
    var a, b := current.multipliers[i], target.multipliers[k];
    assert a == 1 || a == -1;
    assert b == 1 || b == -1;
    GatheredFrom(vec, current, target, k, i);
    GatheredFrom(w, target, current, i, k);
    SwappedAt(vec, current, target, negate, k);
    SwappedAt(w, target, current, negate, i);
    SignsCancel(vec[i], a, b);
  }

  /** Swapping from one order to another and back gives the first three
      components back; with `negate`, both swaps negate or neither does. */
  lemma SwapRoundTrip(vec: seq<real>, current: AxisOrder, target: AxisOrder, negate: bool)
    requires |vec| >= 3 && Proper(current) && Proper(target)
    ensures SwappedBetween(vec, current, target, negate).Success?
    ensures SwappedBetween(SwappedBetween(vec, current, target, negate).value, target, current, negate)
      == Success(vec[..3])
  {
    PermutationDistinct(current.order);
    PermutationDistinct(target.order);
    assert Findable(current, target) && Findable(target, current);
    var r := SwappedComponents(SwappedComponents(vec, current, target, negate), target, current, negate);
    forall i | 0 <= i < 3
      ensures r[i] == vec[i]
    {
      SlotRoundTrip(vec, current, target, negate, i);
    }
    assert r == vec[..3];
  }

  /** "zxy": slot 0 holds z, slot 1 x, slot 2 y; an even permutation, so
      left-handed by the code's rule. */
  const ZxyOrder: AxisOrder := AxisOrder([2, 0, 1], [1, 1, 1], false)

  /** "-xyz": x negated, which makes it right-handed. */
  const NegXyzOrder: AxisOrder := AxisOrder([0, 1, 2], [-1, 1, 1], true)

  lemma ZxyOrderProper()
    ensures Proper(ZxyOrder)
  {
    var a := ZxyOrder;
    assert CountMisplaced(a.order, 1) == 1 && CountMisplaced(a.order, 2) == 2 && CountMisplaced(a.order, 3) == 3;
    assert [1, 1, 1][1..] == [1, 1] && [1, 1][1..] == [1];
    assert CountNegatives([1]) == 0 && CountNegatives([1, 1]) == 0 && CountNegatives([1, 1, 1]) == 0;
    assert multiset(a.order) == multiset{0, 1, 2};
  }

  lemma ZxyOrderParses()
    ensures FromString("zxy") == Success(ZxyOrder)
  {
    var a := ZxyOrder;
    ZxyOrderProper();
    assert XyzText(a, false, 1) == "z";
    assert XyzText(a, false, 2) == "zx";
    assert XyzText(a, false, 3) == "zxy";
    XyzRoundTrip(a);
  }

  lemma NegXyzOrderProper()
    ensures Proper(NegXyzOrder)
  {
    var a := NegXyzOrder;
    assert CountMisplaced(a.order, 1) == 0 && CountMisplaced(a.order, 2) == 0 && CountMisplaced(a.order, 3) == 0;
    assert [-1, 1, 1][1..] == [1, 1] && [1, 1][1..] == [1];
    assert CountNegatives([1]) == 0 && CountNegatives([1, 1]) == 0 && CountNegatives([-1, 1, 1]) == 1;
    assert multiset(a.order) == multiset{0, 1, 2};
  }

  lemma NegXyzOrderParses()
    ensures FromString("-xyz") == Success(NegXyzOrder)
  {
    var a := NegXyzOrder;
    NegXyzOrderProper();
    assert XyzText(a, false, 1) == "-x";
    assert XyzText(a, false, 2) == "-xy";
    assert XyzText(a, false, 3) == "-xyz";
    XyzRoundTrip(a);
  }

  /** The first example of the `swap_vector_axes` documentation, from "xyz"
      (`XyzIsLeftHanded`) to "zxy" (`ZxyOrderParses`). */
  lemma SwapDocExampleZxy()
    ensures SwappedBetween([1.0, 2.0, 3.0], XyzOrder, ZxyOrder, false) == Success([3.0, 1.0, 2.0])
  {
    ZxyOrderProper();
    SwapFromXyz([1.0, 2.0, 3.0], ZxyOrder);
    var r := SwappedBetween([1.0, 2.0, 3.0], XyzOrder, ZxyOrder, false).value;
    assert r[0] == 3.0 && r[1] == 1.0 && r[2] == 2.0;
    assert r == [3.0, 1.0, 2.0];
  }

  /** The second example, from "xyz" to "-xyz" (`NegXyzOrderParses`): the
      sign of x flips, and nothing else does because negation on a
      handedness change was not asked for. */
  lemma SwapDocExampleNegX()
    ensures SwappedBetween([1.0, 0.0, 0.0], XyzOrder, NegXyzOrder, false) == Success([-1.0, 0.0, 0.0])
  {
    NegXyzOrderProper();
    SwapFromXyz([1.0, 0.0, 0.0], NegXyzOrder);
    var r := SwappedBetween([1.0, 0.0, 0.0], XyzOrder, NegXyzOrder, false).value;
    assert r[0] == -1.0 && r[1] == 0.0 && r[2] == 0.0;
    assert r == [-1.0, 0.0, 0.0];
  }

  /** From "xyz", slot `i` of the result is component `target.order[i]`
      with the target's sign. */
  lemma SwapFromXyz(vec: seq<real>, target: AxisOrder)
    requires |vec| == 3 && Proper(target)
    ensures SwappedBetween(vec, XyzOrder, target, false).Success?
    ensures var r := SwappedBetween(vec, XyzOrder, target, false).value;
      forall i :: 0 <= i < 3 ==> r[i] == Scale(vec[target.order[i]], target.multipliers[i])
  {
    PermutationDistinct(target.order);
    assert Findable(XyzOrder, target) by {
      assert forall v :: 0 <= v <= 2 ==> v in XyzOrder.order;
    }
    forall i | 0 <= i < 3
      ensures SwappedComponents(vec, XyzOrder, target, false)[i] ==
        Scale(vec[target.order[i]], target.multipliers[i])
    {
      SlotFromXyz(vec, target, i);
    }
  }

  lemma SlotFromXyz(vec: seq<real>, target: AxisOrder, i: nat)
    requires |vec| == 3 && target.Shaped() && i < 3 && 0 <= target.order[i] <= 2
    requires Findable(XyzOrder, target)
    ensures SwappedComponents(vec, XyzOrder, target, false)[i] ==
      Scale(vec[target.order[i]], target.multipliers[i])
  {
    FirstIndexInXyz(target.order[i]);
    SwappedAt(vec, XyzOrder, target, false, i);
    GatheredFrom(vec, XyzOrder, target, i, target.order[i]);
  }

  /** In "xyz", axis `v` sits in slot `v`. */
  lemma FirstIndexInXyz(v: int)
    requires 0 <= v <= 2
    ensures FirstIndex(XyzOrder.order, v) == Some(v)
  {
    assert XyzOrder.order[1..] == [1, 2] && [1, 2][1..] == [2];
  }

  // ---------------------------------------------------------------------
  // `swap_to`, `swap_quaternion_axes`
  // ---------------------------------------------------------------------

  /** `AxisOrder.swap_to`: the swapped first three components followed by
      every further component unchanged. */
  function SwappedTo(a: AxisOrder, newOrder: AxisSpec, vector: seq<real>, rotational: bool): (r: Result<seq<real>, AxisError>)
    requires a.Shaped() && newOrder.Shaped()
    ensures r.Success? ==> |vector| >= 3 && |r.value| == |vector| && r.value[3..] == vector[3..]
  {
    match SwappedVector(vector, Given(a), newOrder, rotational)
    case Failure(e) => Failure(e)
    case Success(v) => Success(v + vector[3..])
  }

  method SwapTo(a: AxisOrder, newOrder: AxisSpec, vector: seq<real>, rotational: bool)
    returns (r: Result<seq<real>, AxisError>)
    requires a.Shaped() && newOrder.Shaped()
    ensures r == SwappedTo(a, newOrder, vector, rotational)
  {
    r := SwapVectorAxes(vector, Given(a), newOrder, rotational);
    if r.Success? {
      var swapped := CopyTail(r.value, vector);
      r := Success(swapped);
    }
  }

  /** The loop of `swap_to` that copies any additional elements (e.g. for
      quaternions) after the swapped ones. */
  method CopyTail(swapped: seq<real>, vector: seq<real>) returns (r: seq<real>)
    requires |vector| >= 3
    ensures r == swapped + vector[3..]
  {
    r := swapped;
    for i := 3 to |vector|
      invariant r == swapped + vector[3..i]
    {
      r := r + [vector[i]];
    }
    assert vector[3..|vector|] == vector[3..];
  }

  /** `swap_quaternion_axes` on an XYZW quaternion: the vector part swapped
      with negation on a handedness change, W kept. The slice `quat[:3]` is
      the whole list when it is shorter; `quat[3]` raises IndexError only
      after the swap succeeded. */
  function SwappedQuaternion(quat: seq<real>, current: AxisSpec, target: AxisSpec): (r: Result<seq<real>, AxisError>)
    requires current.Shaped() && target.Shaped()
    ensures r.Success? ==> |quat| >= 4 && |r.value| == 4 && r.value[3] == quat[3]
  {
    match SwappedVector(quat[..Min(3, |quat|)], current, target, true)
    case Failure(e) => Failure(e)
    case Success(v) => if |quat| < 4 then Failure(IndexError) else Success(v + [quat[3]])
  }

  /** Swapping a quaternion there and back between two proper orders gives
      it back. */
  lemma QuaternionRoundTrip(quat: seq<real>, current: AxisOrder, target: AxisOrder)
    requires |quat| == 4 && Proper(current) && Proper(target)
    ensures SwappedQuaternion(quat, Given(current), Given(target)).Success?
    ensures SwappedQuaternion(SwappedQuaternion(quat, Given(current), Given(target)).value,
                              Given(target), Given(current)) == Success(quat)
  {
    var v := quat[..3];
    SwapRoundTrip(v, current, target, true);
    var q := SwappedQuaternion(quat, Given(current), Given(target)).value;
    assert q[..3] == SwappedBetween(v, current, target, true).value;
    assert SwappedBetween(q[..3], target, current, true).value == v;
    assert v + [quat[3]] == quat;
  }

  /** On a four-component list with `rotational` set, `swap_to` is
      `swap_quaternion_axes`. */
  lemma SwapToIsQuaternionSwap(a: AxisOrder, newOrder: AxisSpec, quat: seq<real>)
    requires a.Shaped() && newOrder.Shaped() && |quat| == 4
    ensures SwappedTo(a, newOrder, quat, true) == SwappedQuaternion(quat, Given(a), newOrder)
  {
    assert quat[..Min(3, |quat|)] == quat[..3];
    assert quat[3..] == [quat[3]];
    match Resolve(newOrder)
    case Failure(_) =>
    case Success(tgt) =>
      if Findable(a, tgt) {
        assert SwappedComponents(quat, a, tgt, true) == SwappedComponents(quat[..3], a, tgt, true);
      }
  }

  // ---------------------------------------------------------------------
  // `axis_to_unit_vector`
  // ---------------------------------------------------------------------

  /** The argument of `axis_to_unit_vector`: an axis name or an axis number. */
  datatype AxisName = Name(text: string) | Number(n: int)

  /** `axis_to_unit_vector`: the unit vector along x, y or z, named by a letter
      in either case or by its number; `None` for anything else (the function
      then falls off its end). */
  function AxisToUnitVector(axis: AxisName): (r: Option<seq<int>>)
    ensures r.Some? ==> r.value in {[1, 0, 0], [0, 1, 0], [0, 0, 1]}
  {
    var axis := if axis.Name? then Name(Lower(axis.text)) else axis;
    if axis == Name("x") || axis == Number(0) then Some([1, 0, 0])
    else if axis == Name("y") || axis == Number(1) then Some([0, 1, 0])
    else if axis == Name("z") || axis == Number(2) then Some([0, 0, 1])
    else None
  }

  /** The vector for axis number `i` has a 1 in place `i` and 0 elsewhere, and
      the letter of axis `i` in either case names the same vector; no other
      argument names a vector. */
  lemma UnitVectorIsAxis(i: int)
    ensures 0 <= i < 3 ==> AxisToUnitVector(Number(i)).Some?
    ensures 0 <= i < 3 ==> var v := AxisToUnitVector(Number(i)).value;
      |v| == 3 && v[i] == 1 && forall j :: 0 <= j < 3 && j != i ==> v[j] == 0
    ensures 0 <= i < 3 ==> AxisToUnitVector(Name([AxisLetters[i]])) == AxisToUnitVector(Number(i))
    ensures 0 <= i < 3 ==> AxisToUnitVector(Name([AxisLetters[i] - 32 as char])) == AxisToUnitVector(Number(i))
    ensures !(0 <= i < 3) ==> AxisToUnitVector(Number(i)).None?
  {
    if 0 <= i < 3 {
      var c := AxisLetters[i];
      assert Lower([c]) == [c];
      assert Lower([c - 32 as char]) == [c];
    }
  }

  /** Only the six one-letter names x, y, z, X, Y, Z name a vector. */
  lemma UnitVectorNames(s: string)
    ensures AxisToUnitVector(Name(s)).Some? <==> Lower(s) in {"x", "y", "z"}
  {
  }
}
