/**
 * Per-column type inference (WaASCG_Main.parse, doByte, doShort, doInt,
 * doDouble and the scanning part of loadTest).
 *
 * Each column starts as boolean and widens along
 *   boolean < byte < short < int < double < String
 * as values are seen. While boolean, the first two distinct byte codes are
 * kept as the column's sentinels; a third distinct code makes it a byte
 * column. Byte.MIN_VALUE (-128) doubles as the "no sentinel yet" marker.
 */
module TypeInference {
  import opened JavaLang
  import opened Header

  /** The six storage levels. */
  datatype Level = StringLevel | DoubleLevel | IntLevel | ShortLevel | ByteLevel | BooleanLevel

  /**
   * The generator's type code: 0 String, 1 double, 2 int, 3 short, 4 byte,
   * 5 boolean. A smaller code is a more general level.
   */
  function Code(l: Level): (c: int)
    ensures 0 <= c <= 5
  {
    match l
    case StringLevel => 0
    case DoubleLevel => 1
    case IntLevel => 2
    case ShortLevel => 3
    case ByteLevel => 4
    case BooleanLevel => 5
  }

  /** Position in the widening order: boolean 0 up to String 5. */
  function Rank(l: Level): nat {
    5 - Code(l)
  }

  lemma CodeInjective(l: Level, m: Level)
    ensures Code(l) == Code(m) <==> l == m
  {
  }

  /** The level one step more general (boolean has no successor here: it is left by its own rule). */
  function Next(l: Level): (m: Level)
    requires l != BooleanLevel && l != StringLevel
    ensures Rank(m) == Rank(l) + 1
  {
    match l
    case ByteLevel => ShortLevel
    case ShortLevel => IntLevel
    case IntLevel => DoubleLevel
    case DoubleLevel => StringLevel
  }

  /**
   * Whether a non-empty value can be stored at a level: Math_Byte.isByte,
   * Math_Short.isShort, Math_Integer.isInt, Math_Double.isDouble (the last
   * is the parameter isDouble); anything is a String.
   */
  predicate Fits(l: Level, s: string, isDouble: string -> bool) {
    match l
    case StringLevel => true
    case DoubleLevel => isDouble(s)
    case IntLevel => IsInt(s)
    case ShortLevel => IsShort(s)
    case ByteLevel => IsByte(s)
    case BooleanLevel => IsByte(s)
  }

  /**
   * The first level, from l upwards, at which the value fits: what the
   * chain doByte -> doShort -> doInt -> doDouble computes.
   */
  function Widen(l: Level, s: string, isDouble: string -> bool): (r: Level)
    requires l != BooleanLevel
    ensures r != BooleanLevel && Rank(l) <= Rank(r)
    decreases 5 - Rank(l)
  {
    if Fits(l, s, isDouble) then l else Widen(Next(l), s, isDouble)
  }

  /** Widen stops at the first level, from l upwards, that can hold the value. */
  lemma {:induction false} WidenIsFirstFit(l: Level, s: string, isDouble: string -> bool)
    requires l != BooleanLevel
    ensures Fits(Widen(l, s, isDouble), s, isDouble)
    ensures forall m :: Rank(l) <= Rank(m) < Rank(Widen(l, s, isDouble)) ==> !Fits(m, s, isDouble)
    decreases 5 - Rank(l)
  {
    if !Fits(l, s, isDouble) {
      WidenIsFirstFit(Next(l), s, isDouble);
      assert forall m :: Rank(m) == Rank(l) ==> m == l;
    }
  }

  /**
   * The state of one column: its level, its two byte-array sentinels v0 and
   * v1 (BYTE_MIN meaning unset), and the values it last put into the
   * per-field maps v0m and v1m (None if it never put one).
   */
  datatype Column = Column(level: Level, v0: int, v1: int, low: Option<int>, high: Option<int>)

  /** loadTest's initial state: boolean, both sentinels unset. */
  const Initial: Column := Column(BooleanLevel, BYTE_MIN, BYTE_MIN, None, None)

  /** The value is a byte that parse records as the low sentinel (v0m.put). */
  predicate PutsLow(c: Column, s: string) {
    !IsBlank(s) && c.level == BooleanLevel && IsByte(s) && !(c.v0 > BYTE_MIN)
  }

  /** The value is a byte that parse records as the high sentinel (v1m.put). */
  predicate PutsHigh(c: Column, s: string) {
    !IsBlank(s) && c.level == BooleanLevel && IsByte(s) && c.v0 > BYTE_MIN
    && ByteValue(s) != c.v0 && !(c.v1 > BYTE_MIN)
  }

  /** The effect of parse on one column for one value. */
  function Observe(c: Column, s: string, isDouble: string -> bool): Column {
    if IsBlank(s) || c.level == StringLevel then c
    else if c.level == BooleanLevel then
      if IsByte(s) then
        var b := ByteValue(s);
        if !(c.v0 > BYTE_MIN) then c.(v0 := b, low := Some(b))
        else if b == c.v0 then c
        else if !(c.v1 > BYTE_MIN) then c.(v1 := b, high := Some(b))
        else if b == c.v1 then c
        else c.(level := ByteLevel)
      else c.(level := Widen(ShortLevel, s, isDouble))
    else c.(level := Widen(c.level, s, isDouble))
  }

  /** The column after seeing vals in order, from state c. */
  function ScanFrom(c: Column, vals: seq<string>, isDouble: string -> bool): Column
    decreases |vals|
  {
    if |vals| == 0 then c
    else Observe(ScanFrom(c, vals[..|vals| - 1], isDouble), vals[|vals| - 1], isDouble)
  }

  // ---------------------------------------------------------------------
  // Properties of one observation

  /** The level never narrows: a column only moves towards String. */
  lemma ObserveWidens(c: Column, s: string, isDouble: string -> bool)
    ensures Rank(c.level) <= Rank(Observe(c, s, isDouble).level)
    ensures c.level != BooleanLevel ==> Observe(c, s, isDouble).level != BooleanLevel
    ensures c.level == BooleanLevel && Observe(c, s, isDouble).level != BooleanLevel ==>
      Observe(c, s, isDouble).level == ByteLevel || Rank(ShortLevel) <= Rank(Observe(c, s, isDouble).level)
  {
  }

  /** An empty (after trim) value changes nothing, and String is terminal. */
  lemma ObserveBlankOrString(c: Column, s: string, isDouble: string -> bool)
    requires Trim(s) == [] || c.level == StringLevel
    ensures Observe(c, s, isDouble) == c
  {
    TrimEmptyIffBlank(s);
  }

  /** A non-empty value that is not a number at all makes the column a String column. */
  lemma NonNumericMakesString(c: Column, s: string, isDouble: string -> bool)
    requires !IsBlank(s) && !IsInt(s) && !isDouble(s)
    ensures Observe(c, s, isDouble).level == StringLevel
  {
    ByteIsShortIsInt(s);
  }

  /** A byte value distinct from both recorded sentinels turns a boolean column into a byte column. */
  lemma ThirdCodeMakesByte(c: Column, s: string, isDouble: string -> bool)
    requires c.level == BooleanLevel && c.v0 > BYTE_MIN && c.v1 > BYTE_MIN
    requires !IsBlank(s) && IsByte(s) && ByteValue(s) != c.v0 && ByteValue(s) != c.v1
    ensures Observe(c, s, isDouble).level == ByteLevel
  {
  }

  /**
   * The sentinel bookkeeping a column keeps: a set v0 is what it put in
   * v0m, a set v1 what it put in v1m, and a high sentinel is only recorded
   * after a (set) low one and differs from it.
   */
  ghost predicate Consistent(c: Column) {
    && InByteRange(c.v0) && InByteRange(c.v1)
    && (c.v0 > BYTE_MIN ==> c.low == Some(c.v0))
    && (c.v1 > BYTE_MIN ==> c.v0 > BYTE_MIN && c.high == Some(c.v1))
    && (c.high.Some? ==> c.v0 > BYTE_MIN && c.high.value != c.v0)
  }

  lemma ObserveConsistent(c: Column, s: string, isDouble: string -> bool)
    requires Consistent(c)
    ensures Consistent(Observe(c, s, isDouble))
  {
  }

  /** Both recorded sentinels of a column differ. */
  lemma {:induction false} ScanKeepsSentinelsApart(vals: seq<string>, isDouble: string -> bool)
    ensures Consistent(ScanFrom(Initial, vals, isDouble))
    ensures var c := ScanFrom(Initial, vals, isDouble);
      c.high.Some? ==> c.low.Some? && c.low.value != c.high.value
    decreases |vals|
  {
    if |vals| > 0 {
      ScanKeepsSentinelsApart(vals[..|vals| - 1], isDouble);
      ObserveConsistent(ScanFrom(Initial, vals[..|vals| - 1], isDouble), vals[|vals| - 1], isDouble);
    }
  }

  /** Once a column has left boolean, it never comes back, whatever follows. */
  lemma {:induction false} ScanWidens(c: Column, vals: seq<string>, isDouble: string -> bool)
    ensures Rank(c.level) <= Rank(ScanFrom(c, vals, isDouble).level)
    ensures c.level != BooleanLevel ==> ScanFrom(c, vals, isDouble).level != BooleanLevel
    decreases |vals|
  {
    if |vals| > 0 {
      ScanWidens(c, vals[..|vals| - 1], isDouble);
      ObserveWidens(ScanFrom(c, vals[..|vals| - 1], isDouble), vals[|vals| - 1], isDouble);
    }
  }

  /** A column whose values are all empty stays boolean and records no sentinel. */
  lemma {:induction false} AllBlankStaysInitial(vals: seq<string>, isDouble: string -> bool)
    requires forall k :: 0 <= k < |vals| ==> IsBlank(vals[k])
    ensures ScanFrom(Initial, vals, isDouble) == Initial
    decreases |vals|
  {
    if |vals| > 0 {
      AllBlankStaysInitial(vals[..|vals| - 1], isDouble);
    }
  }

  /** Math_Double.isDouble accepts every text Integer.parseInt accepts. */
  ghost predicate IntsAreDoubles(isDouble: string -> bool) {
    forall s :: IsInt(s) ==> isDouble(s)
  }

  /** A value that fits a level fits every more general level. */
  lemma FitsGeneralises(l: Level, m: Level, s: string, isDouble: string -> bool)
    requires IntsAreDoubles(isDouble) && Rank(l) <= Rank(m) && Fits(l, s, isDouble)
    ensures Fits(m, s, isDouble)
  {
    ByteIsShortIsInt(s);
  }

  /** A non-empty value fits the level its observation leaves the column at. */
  lemma ObserveFits(c: Column, s: string, isDouble: string -> bool)
    requires !IsBlank(s)
    ensures Fits(Observe(c, s, isDouble).level, s, isDouble)
  {
    if c.level == BooleanLevel {
      if !IsByte(s) {
        WidenIsFirstFit(ShortLevel, s, isDouble);
      }
    } else if c.level != StringLevel {
      WidenIsFirstFit(c.level, s, isDouble);
    }
  }

  /**
   * Every non-empty value of a column fits the level the scan ends at: the
   * inferred type can hold all the data it was inferred from.
   */
  lemma {:induction false} ScanFits(vals: seq<string>, isDouble: string -> bool)
    requires IntsAreDoubles(isDouble)
    ensures forall k :: 0 <= k < |vals| && !IsBlank(vals[k]) ==>
      Fits(ScanFrom(Initial, vals, isDouble).level, vals[k], isDouble)
    decreases |vals|
  {
    if |vals| > 0 {
      var prefix := vals[..|vals| - 1];
      var c := ScanFrom(Initial, prefix, isDouble);
      var s := vals[|vals| - 1];
      var d := Observe(c, s, isDouble);
      ScanFits(prefix, isDouble);
      ObserveWidens(c, s, isDouble);
      if !IsBlank(s) {
        ObserveFits(c, s, isDouble);
      }
      forall k | 0 <= k < |vals| - 1 && !IsBlank(vals[k])
        ensures Fits(d.level, vals[k], isDouble)
      {
        assert vals[k] == prefix[k];
        FitsGeneralises(c.level, d.level, vals[k], isDouble);
      }
    }
  }

  /** The value is the non-empty byte code a. */
  predicate IsCode(s: string, a: int) {
    !IsBlank(s) && IsByte(s) && ByteValue(s) == a
  }

  /** The value is empty or a byte code in {a, b}. */
  predicate AmongTwo(s: string, a: int, b: int) {
    IsBlank(s) || (IsByte(s) && (ByteValue(s) == a || ByteValue(s) == b))
  }

  /**
   * A column that only ever sees two distinct codes a and b (neither -128)
   * stays boolean, and every sentinel it records is a or b.
   */
  lemma {:induction false} TwoCodesStayBoolean(vals: seq<string>, a: int, b: int, isDouble: string -> bool)
    requires a != b && a != BYTE_MIN && b != BYTE_MIN
    requires forall k :: 0 <= k < |vals| ==> AmongTwo(vals[k], a, b)
    ensures var c := ScanFrom(Initial, vals, isDouble);
      && c.level == BooleanLevel
      && (c.v0 == BYTE_MIN || c.v0 == a || c.v0 == b)
      && (c.v1 == BYTE_MIN || c.v1 == a || c.v1 == b)
      && (c.low.Some? ==> c.low.value == a || c.low.value == b)
      && (c.high.Some? ==> c.high.value == a || c.high.value == b)
      && (c.low.Some? <==> c.v0 != BYTE_MIN)
      && (c.high.Some? <==> c.v1 != BYTE_MIN)
    decreases |vals|
  {
    ScanKeepsSentinelsApart(vals, isDouble);
    if |vals| > 0 {
      TwoCodesStayBoolean(vals[..|vals| - 1], a, b, isDouble);
    }
  }

  /**
   * ... and once both codes have been seen, the recorded sentinels are
   * exactly a and b, in the order they first appeared.
   */
  lemma {:induction false} TwoCodesBothRecorded(vals: seq<string>, i: nat, j: nat, a: int, b: int, isDouble: string -> bool)
    requires a != b && a != BYTE_MIN && b != BYTE_MIN
    requires forall k :: 0 <= k < |vals| ==> AmongTwo(vals[k], a, b)
    requires i < |vals| && j < |vals|
    requires IsCode(vals[i], a) && IsCode(vals[j], b)
    ensures var c := ScanFrom(Initial, vals, isDouble);
      c.low.Some? && c.high.Some? && {c.low.value, c.high.value} == {a, b}
    decreases |vals|
  {
    var c := ScanFrom(Initial, vals, isDouble);
    var last := |vals| - 1;
    var prev := vals[..last];
    TwoCodesStayBoolean(vals, a, b, isDouble);
    TwoCodesStayBoolean(prev, a, b, isDouble);
    ScanKeepsSentinelsApart(vals, isDouble);
    var p := ScanFrom(Initial, prev, isDouble);
    assert c == Observe(p, vals[last], isDouble);
    ScanKeepsSentinelsApart(prev, isDouble);
    if i < last && j < last {
      TwoCodesBothRecorded(prev, i, j, a, b, isDouble);
    } else if i < last {
      // j is the last value: b
      OneCodeRecorded(prev, i, a, b, isDouble);
    } else if j < last {
      OneCodeRecorded(prev, j, b, a, isDouble);
    } else {
      assert false;
    }
  }

  /** After a code has been seen, it is one of the recorded sentinels. */
  lemma {:induction false} OneCodeRecorded(vals: seq<string>, i: nat, a: int, b: int, isDouble: string -> bool)
    requires a != b && a != BYTE_MIN && b != BYTE_MIN
    requires forall k :: 0 <= k < |vals| ==> AmongTwo(vals[k], a, b)
    requires i < |vals| && IsCode(vals[i], a)
    ensures var c := ScanFrom(Initial, vals, isDouble);
      c.v0 == a || c.v1 == a
    decreases |vals|
  {
    var last := |vals| - 1;
    TwoCodesStayBoolean(vals, a, b, isDouble);
    TwoCodesStayBoolean(vals[..last], a, b, isDouble);
    ScanKeepsSentinelsApart(vals[..last], isDouble);
    if i < last {
      OneCodeRecorded(vals[..last], i, a, b, isDouble);
    }
  }

  /** A first byte code of -128 is put into v0m although the column still counts as having no sentinel. */
  lemma MinByteRecordedButUnset(s: string, isDouble: string -> bool)
    requires IsCode(s, BYTE_MIN)
    ensures var c := Observe(Initial, s, isDouble);
      c.low == Some(BYTE_MIN) && c.v0 == BYTE_MIN && c.level == BooleanLevel
  {
  }
  /**
   * Because Byte.MIN_VALUE marks an unset sentinel, a column that starts
   * with -128 and then holds two other codes a and b stays boolean with
   * sentinels a and b: three distinct codes, of which -128 is recorded
   * nowhere.
   */
  lemma MinByteSlipsThrough(x: string, y: string, z: string, a: int, b: int, isDouble: string -> bool)
    requires a != b && a != BYTE_MIN && b != BYTE_MIN
    requires IsCode(x, BYTE_MIN) && IsCode(y, a) && IsCode(z, b)
    ensures var c := ScanFrom(Initial, [x, y, z], isDouble);
      c.level == BooleanLevel && c.low == Some(a) && c.high == Some(b)
  {
    var vals := [x, y, z];
    assert vals[..2] == [x, y] && [x, y][..1] == [x] && [x][..0] == [];
    var c1 := Observe(Initial, x, isDouble);
    assert c1.v0 == BYTE_MIN && c1.level == BooleanLevel;
    var c2 := Observe(c1, y, isDouble);
    assert c2.v0 == a && c2.low == Some(a) && c2.v1 == BYTE_MIN;
    assert ScanFrom(Initial, [x], isDouble) == c1;
    assert ScanFrom(Initial, [x, y], isDouble) == c2;
    assert ScanFrom(Initial, vals, isDouble) == Observe(c2, z, isDouble);
  }


  // ---------------------------------------------------------------------
  // The six boolean arrays of loadTest, one entry per column

  /** The flags strings[i] .. booleans[i] of one column. */
  datatype Flags = Flags(strings: bool, doubles: bool, ints: bool, shorts: bool, bytes: bool, booleans: bool)

  function CountSet(f: Flags): nat {
    (if f.strings then 1 else 0) + (if f.doubles then 1 else 0) + (if f.ints then 1 else 0)
    + (if f.shorts then 1 else 0) + (if f.bytes then 1 else 0) + (if f.booleans then 1 else 0)
  }

  /** How a level is held in the arrays: exactly the flag of that level is set. */
  function Encode(l: Level): (f: Flags)
    ensures CountSet(f) == 1
    ensures f.strings <==> l == StringLevel
    ensures f.doubles <==> l == DoubleLevel
    ensures f.ints <==> l == IntLevel
    ensures f.shorts <==> l == ShortLevel
    ensures f.bytes <==> l == ByteLevel
    ensures f.booleans <==> l == BooleanLevel
  {
    match l
    case StringLevel => Flags(true, false, false, false, false, false)
    case DoubleLevel => Flags(false, true, false, false, false, false)
    case IntLevel => Flags(false, false, true, false, false, false)
    case ShortLevel => Flags(false, false, false, true, false, false)
    case ByteLevel => Flags(false, false, false, false, true, false)
    case BooleanLevel => Flags(false, false, false, false, false, true)
  }

  /** The values of column i, one per row, of rows already split on tabs. */
  function ColumnValues(rows: seq<seq<string>>, i: nat): (vals: seq<string>)
    requires forall r :: 0 <= r < |rows| ==> i < |rows[r]|
    ensures |vals| == |rows| && forall r :: 0 <= r < |rows| ==> vals[r] == rows[r][i]
  {
    seq(|rows|, r requires 0 <= r < |rows| => rows[r][i])
  }

  /** No two columns have the same field name. */
  predicate Distinct(fields: seq<string>) {
    forall i, j :: 0 <= i < j < |fields| ==> fields[i] != fields[j]
  }

  /** The sentinel maps in the order loadTest leaves them: smaller code in v0m. */
  function OrderedLow(c: Column): Option<int> {
    if c.low.Some? && c.high.Some? && c.low.value > c.high.value then c.high else c.low
  }

  function OrderedHigh(c: Column): Option<int> {
    if c.low.Some? && c.high.Some? && c.low.value > c.high.value then c.low else c.high
  }

  /** The maps hold exactly, per field, the sentinels its column recorded. */
  ghost predicate RecordedIn(fields: seq<string>, cs: seq<Column>, v0m: map<string, int>, v1m: map<string, int>)
    requires |cs| == |fields|
  {
    && (forall f :: f in v0m ==> f in fields)
    && (forall f :: f in v1m ==> f in fields)
    && (forall i :: 0 <= i < |fields| ==> (fields[i] in v0m <==> cs[i].low.Some?))
    && (forall i :: 0 <= i < |fields| ==> (fields[i] in v1m <==> cs[i].high.Some?))
    && (forall i :: 0 <= i < |fields| && cs[i].low.Some? ==> v0m[fields[i]] == cs[i].low.value)
    && (forall i :: 0 <= i < |fields| && cs[i].high.Some? ==> v1m[fields[i]] == cs[i].high.value)
  }

  /** The maps hold exactly, per field, its column's sentinels in order: the smaller in v0m. */
  ghost predicate OrderedIn(fields: seq<string>, cs: seq<Column>, v0m: map<string, int>, v1m: map<string, int>)
    requires |cs| == |fields|
  {
    && (forall f :: f in v0m ==> f in fields)
    && (forall f :: f in v1m ==> f in fields)
    && (forall i :: 0 <= i < |fields| ==> (fields[i] in v0m <==> OrderedLow(cs[i]).Some?))
    && (forall i :: 0 <= i < |fields| ==> (fields[i] in v1m <==> OrderedHigh(cs[i]).Some?))
    && (forall i :: 0 <= i < |fields| && OrderedLow(cs[i]).Some? ==> v0m[fields[i]] == OrderedLow(cs[i]).value)
    && (forall i :: 0 <= i < |fields| && OrderedHigh(cs[i]).Some? ==> v1m[fields[i]] == OrderedHigh(cs[i]).value)
  }

  /** What loadTest returns for one wave. */
  datatype WaveTypes = WaveTypes(fields: seq<string>, flags: seq<Flags>, v0m: map<string, int>, v1m: map<string, int>)

  /**
   * The working state of loadTest: the six flag arrays, the two sentinel
   * arrays and the two sentinel maps that parse and the do* methods update.
   */
  class TypeScan {
    const fields: seq<string>
    const strings: array<bool>
    const doubles: array<bool>
    const ints: array<bool>
    const shorts: array<bool>
    const bytes: array<bool>
    const booleans: array<bool>
    const v0: array<int>
    const v1: array<int>
    var v0m: map<string, int>
    var v1m: map<string, int>
    /** The abstract state of every column. */
    ghost var cols: seq<Column>

    /** All arrays have one entry per field and the six flag arrays are distinct. */
    predicate Shaped()
    {
      && strings.Length == |fields| && doubles.Length == |fields| && ints.Length == |fields|
      && shorts.Length == |fields| && bytes.Length == |fields| && booleans.Length == |fields|
      && v0.Length == |fields| && v1.Length == |fields| && v0 != v1
      && strings != doubles && strings != ints && strings != shorts && strings != bytes && strings != booleans
      && doubles != ints && doubles != shorts && doubles != bytes && doubles != booleans
      && ints != shorts && ints != bytes && ints != booleans
      && shorts != bytes && shorts != booleans
      && bytes != booleans
    }

    function FlagsAt(i: nat): Flags
      requires Shaped() && i < |fields|
      reads strings, doubles, ints, shorts, bytes, booleans
    {
      Flags(strings[i], doubles[i], ints[i], shorts[i], bytes[i], booleans[i])
    }

    /** The arrays hold the abstract columns. */
    ghost predicate Valid()
      reads this, strings, doubles, ints, shorts, bytes, booleans, v0, v1
    {
      && Shaped() && |cols| == |fields|
      && (forall i :: 0 <= i < |fields| ==> FlagsAt(i) == Encode(cols[i].level))
      && (forall i :: 0 <= i < |fields| ==> v0[i] == cols[i].v0 && v1[i] == cols[i].v1)
    }

    /** The flags of every column, as loadTest returns them. */
    function FlagSeq(): (r: seq<Flags>)
      requires Shaped()
      reads strings, doubles, ints, shorts, bytes, booleans
      ensures |r| == |fields| && forall i :: 0 <= i < |fields| ==> r[i] == FlagsAt(i)
    {
      seq(|fields|, i requires 0 <= i < |fields| && Shaped() reads strings, doubles, ints, shorts, bytes, booleans => FlagsAt(i))
    }

    /** loadTest's allocation and initialisation of the arrays: every column boolean, no sentinel. */
    constructor (fields: seq<string>)
      ensures this.fields == fields && Valid()
      ensures fresh(strings) && fresh(doubles) && fresh(ints) && fresh(shorts) && fresh(bytes) && fresh(booleans)
      ensures fresh(v0) && fresh(v1)
      ensures cols == seq(|fields|, _ => Initial)
      ensures v0m == map[] && v1m == map[]
    {
      var n := |fields|;
      this.fields := fields;
      strings := new bool[n](_ => false);
      doubles := new bool[n](_ => false);
      ints := new bool[n](_ => false);
      shorts := new bool[n](_ => false);
      bytes := new bool[n](_ => false);
      booleans := new bool[n](_ => true);
      v0 := new int[n](_ => BYTE_MIN);
      v1 := new int[n](_ => BYTE_MIN);
      v0m := map[];
      v1m := map[];
      cols := seq(n, _ => Initial);
    }

    /** doDouble: a value that is not a double makes the column a String column. */
    method DoDouble(s: string, index: nat, isDouble: string -> bool)
      requires Valid() && index < |fields| && cols[index].level == DoubleLevel
      modifies this, strings, doubles
      ensures Valid() && v0m == old(v0m) && v1m == old(v1m)
      ensures cols == old(cols)[index := old(cols[index]).(level := Widen(DoubleLevel, s, isDouble))]
    {
      if !isDouble(s) {
        doubles[index] := false;
        strings[index] := true;
        cols := cols[index := cols[index].(level := StringLevel)];
      }
    }

    /** doInt: a value that is not an int moves the column on to double. */
    method DoInt(s: string, index: nat, isDouble: string -> bool)
      requires Valid() && index < |fields| && cols[index].level == IntLevel
      modifies this, strings, doubles, ints
      ensures Valid() && v0m == old(v0m) && v1m == old(v1m)
      ensures cols == old(cols)[index := old(cols[index]).(level := Widen(IntLevel, s, isDouble))]
    {
      if !IsInt(s) {
        ints[index] := false;
        doubles[index] := true;
        cols := cols[index := cols[index].(level := DoubleLevel)];
        DoDouble(s, index, isDouble);
      }
    }

    /** doShort: a value that is not a short moves the column on to int. */
    method DoShort(s: string, index: nat, isDouble: string -> bool)
      requires Valid() && index < |fields| && cols[index].level == ShortLevel
      modifies this, strings, doubles, ints, shorts
      ensures Valid() && v0m == old(v0m) && v1m == old(v1m)
      ensures cols == old(cols)[index := old(cols[index]).(level := Widen(ShortLevel, s, isDouble))]
    {
      if !IsShort(s) {
        shorts[index] := false;
        ints[index] := true;
        cols := cols[index := cols[index].(level := IntLevel)];
        DoInt(s, index, isDouble);
      }
    }

    /** doByte: a value that is not a byte moves the column on to short. */
    method DoByte(s: string, index: nat, isDouble: string -> bool)
      requires Valid() && index < |fields| && cols[index].level == ByteLevel
      modifies this, strings, doubles, ints, shorts, bytes
      ensures Valid() && v0m == old(v0m) && v1m == old(v1m)
      ensures cols == old(cols)[index := old(cols[index]).(level := Widen(ByteLevel, s, isDouble))]
    {
      if !IsByte(s) {
        bytes[index] := false;
        shorts[index] := true;
        cols := cols[index := cols[index].(level := ShortLevel)];
        DoShort(s, index, isDouble);
      }
    }

    /** parse: one value s of column index updates that column as Observe says. */
    method Parse(s: string, index: nat, isDouble: string -> bool)
      requires Valid() && index < |fields|
      modifies this, strings, doubles, ints, shorts, bytes, booleans, v0, v1
      ensures Valid()
      ensures cols == old(cols)[index := Observe(old(cols[index]), s, isDouble)]
      ensures v0m == if PutsLow(old(cols[index]), s) then old(v0m)[fields[index] := ByteValue(s)] else old(v0m)
      ensures v1m == if PutsHigh(old(cols[index]), s) then old(v1m)[fields[index] := ByteValue(s)] else old(v1m)
    {
      ghost var c := cols[index];
      TrimEmptyIffBlank(s);
      if Trim(s) != [] {
        if !strings[index] {
          if doubles[index] {
            assert c.level == DoubleLevel && Observe(c, s, isDouble) == c.(level := Widen(DoubleLevel, s, isDouble));
            DoDouble(s, index, isDouble);
          } else if ints[index] {
            assert c.level == IntLevel && Observe(c, s, isDouble) == c.(level := Widen(IntLevel, s, isDouble));
            DoInt(s, index, isDouble);
          } else if shorts[index] {
            assert c.level == ShortLevel && Observe(c, s, isDouble) == c.(level := Widen(ShortLevel, s, isDouble));
            DoShort(s, index, isDouble);
          } else if bytes[index] {
            assert c.level == ByteLevel && Observe(c, s, isDouble) == c.(level := Widen(ByteLevel, s, isDouble));
            DoByte(s, index, isDouble);
          } else if booleans[index] {
            ParseBoolean(s, index, isDouble);
          }
        }
      }
    }

    /** The boolean branch of parse: a byte is recorded as a sentinel, anything else widens. */
    method ParseBoolean(s: string, index: nat, isDouble: string -> bool)
      requires Valid() && index < |fields| && !IsBlank(s) && cols[index].level == BooleanLevel
      modifies this, strings, doubles, ints, shorts, bytes, booleans, v0, v1
      ensures Valid()
      ensures cols == old(cols)[index := Observe(old(cols[index]), s, isDouble)]
      ensures v0m == if PutsLow(old(cols[index]), s) then old(v0m)[fields[index] := ByteValue(s)] else old(v0m)
      ensures v1m == if PutsHigh(old(cols[index]), s) then old(v1m)[fields[index] := ByteValue(s)] else old(v1m)
    {
      if IsByte(s) {
        RecordByte(s, index, isDouble);
      } else {
        ghost var c := cols[index];
        booleans[index] := false;
        shorts[index] := true;
        cols := cols[index := c.(level := ShortLevel)];
        DoShort(s, index, isDouble);
      }
    }

    /**
     * A byte value in a boolean column: the first distinct value goes to v0,
     * the second to v1, and a third distinct value makes the column byte.
     */
    method RecordByte(s: string, index: nat, isDouble: string -> bool)
      requires Valid() && index < |fields| && !IsBlank(s) && cols[index].level == BooleanLevel && IsByte(s)
      modifies this, bytes, booleans, v0, v1
      ensures Valid()
      ensures cols == old(cols)[index := Observe(old(cols[index]), s, isDouble)]
      ensures v0m == if PutsLow(old(cols[index]), s) then old(v0m)[fields[index] := ByteValue(s)] else old(v0m)
      ensures v1m == if PutsHigh(old(cols[index]), s) then old(v1m)[fields[index] := ByteValue(s)] else old(v1m)
    {
      ghost var c := cols[index];
      var b := ByteValue(s);
      if v0[index] > BYTE_MIN {
        if b != v0[index] {
          if v1[index] > BYTE_MIN {
            if b != v1[index] {
              booleans[index] := false;
              bytes[index] := true;
            }
          } else {
            v1[index] := b;
            v1m := v1m[fields[index] := b];
          }
        }
      } else {
        v0[index] := b;
        v0m := v0m[fields[index] := b];
      }
      cols := cols[index := Observe(c, s, isDouble)];
    }

    /**
     * The inner loop of loadTest: every value of one data line goes through
     * parse, column by column.
     */
    method ParseRow(split: seq<string>, isDouble: string -> bool)
      requires Valid() && |fields| <= |split|
      modifies this, strings, doubles, ints, shorts, bytes, booleans, v0, v1
      ensures Valid() && |cols| == |old(cols)|
      ensures forall j :: 0 <= j < |fields| ==> cols[j] == Observe(old(cols[j]), split[j], isDouble)
      ensures v0m == RowPuts(fields, old(cols), split, old(v0m), true, |fields|)
      ensures v1m == RowPuts(fields, old(cols), split, old(v1m), false, |fields|)
    {
      for i := 0 to |fields|
        invariant Valid()
        invariant forall j :: 0 <= j < i ==> cols[j] == Observe(old(cols[j]), split[j], isDouble)
        invariant forall j :: i <= j < |fields| ==> cols[j] == old(cols[j])
        invariant v0m == RowPuts(fields, old(cols), split, old(v0m), true, i)
        invariant v1m == RowPuts(fields, old(cols), split, old(v1m), false, i)
      {
        assert cols[i] == old(cols)[i];
        Parse(split[i], i, isDouble);
      }
    }

    /**
     * The scan loop of loadTest: every data line, already split on tabs, goes
     * through parseRow. A line shorter than the header stops the scan (the
     * source fails there with an index out of bounds).
     */
    method ParseRows(rows: seq<seq<string>>, isDouble: string -> bool) returns (ok: bool)
      requires Valid() && cols == seq(|fields|, _ => Initial) && v0m == map[] && v1m == map[]
      modifies this, strings, doubles, ints, shorts, bytes, booleans, v0, v1
      ensures Valid() && |cols| == |fields|
      ensures ok <==> LongEnough(rows, |fields|)
      ensures ok ==> cols == Columns(rows, |fields|, isDouble)
      ensures ok ==> v0m == SentinelMap(fields, rows, isDouble, true) && v1m == SentinelMap(fields, rows, isDouble, false)
    {
      var n := |fields|;
      var k := 0;
      while k < |rows|
        invariant 0 <= k <= |rows| && Valid()
        invariant LongEnough(rows[..k], n)
        invariant cols == Columns(rows[..k], n, isDouble)
        invariant v0m == SentinelMap(fields, rows[..k], isDouble, true)
        invariant v1m == SentinelMap(fields, rows[..k], isDouble, false)
      {
        var split := rows[k];
        if |split| < n {
          return false;
        }
        assert LongEnough(rows[..k + 1], n);
        assert rows[..k + 1][..k] == rows[..k];
        ghost var cs := cols;
        ParseRow(split, isDouble);
        ColumnsStep(rows, k, n, isDouble, cs, cols);
        k := k + 1;
      }
      assert rows[..k] == rows;
      ok := true;
    }

    /** The end of loadTest: the sentinels are ordered and fields, flags and maps handed back. */
    method Finish() returns (r: WaveTypes)
      requires Valid()
      requires forall i :: 0 <= i < |cols| ==> cols[i].high.Some? ==> Apart(cols[i])
      modifies this
      ensures cols == old(cols)
      ensures r.fields == fields && |r.flags| == |fields|
      ensures forall i :: 0 <= i < |fields| ==> r.flags[i] == Encode(cols[i].level)
      ensures Reordered(old(v0m), old(v1m), r.v0m, r.v1m)
      ensures Distinct(fields) && old(RecordedIn(fields, cols, v0m, v1m)) ==>
        OrderedIn(fields, cols, r.v0m, r.v1m) && StrictlyOrdered(r.v0m, r.v1m)
    {
      ghost var m0, m1 := v0m, v1m;
      OrderSentinels();
      if Distinct(fields) && RecordedIn(fields, cols, m0, m1) {
        ReorderedOrderedIn(fields, cols, m0, m1, v0m, v1m);
      }
      r := WaveTypes(fields, FlagSeq(), v0m, v1m);
    }

    /**
     * The final loop of loadTest: for every field in both maps, the smaller
     * code ends up in v0m and the larger in v1m, whatever order the keys
     * are visited in.
     */
    method OrderSentinels()
      modifies this
      ensures cols == old(cols)
      ensures Reordered(old(v0m), old(v1m), v0m, v1m)
    {
      var todo := v0m.Keys;
      while todo != {}
        invariant todo <= v0m.Keys
        invariant cols == old(cols)
        invariant v0m.Keys == old(v0m.Keys) && v1m.Keys == old(v1m.Keys)
        invariant forall f :: f in v0m && f !in todo && f in v1m ==>
          v0m[f] == Min(old(v0m[f]), old(v1m[f])) && v1m[f] == Max(old(v0m[f]), old(v1m[f]))
        invariant forall f :: f in todo ==> v0m[f] == old(v0m[f]) && (f in v1m ==> v1m[f] == old(v1m[f]))
        invariant forall f :: f in v0m && f !in v1m ==> v0m[f] == old(v0m[f])
        invariant forall f :: f in v1m && f !in v0m ==> v1m[f] == old(v1m[f])
        decreases todo
      {
        var f :| f in todo;
        var v00 := v0m[f];
        if f in v1m {
          var v11 := v1m[f];
          if v00 > v11 {
            v0m := v0m[f := v11];
            v1m := v1m[f := v00];
          }
        }
        todo := todo - {f};
      }
    }
  }

  /** The two maps after loadTest's ordering loop: per field in both, the smaller value first. */
  ghost predicate Reordered(v0m: map<string, int>, v1m: map<string, int>, w0m: map<string, int>, w1m: map<string, int>) {
    && w0m.Keys == v0m.Keys && w1m.Keys == v1m.Keys
    && (forall f :: f in v0m && f in v1m ==> w0m[f] == Min(v0m[f], v1m[f]) && w1m[f] == Max(v0m[f], v1m[f]))
    && (forall f :: f in v0m && f !in v1m ==> w0m[f] == v0m[f])
    && (forall f :: f in v1m && f !in v0m ==> w1m[f] == v1m[f])
  }

  /** A recorded high sentinel comes with a low one, and the two differ. */
  predicate Apart(c: Column) {
    c.high.Some? ==> c.low.Some? && c.low.value != c.high.value
  }

  /** Every field in both maps has a smaller code in v0m than in v1m. */
  ghost predicate StrictlyOrdered(v0m: map<string, int>, v1m: map<string, int>) {
    forall f :: f in v0m && f in v1m ==> v0m[f] < v1m[f]
  }

  /**
   * Ordering maps that hold the columns' sentinels yields maps that hold the
   * ordered sentinels, with v0m's strictly below v1m's.
   */
  lemma ReorderedOrderedIn(fields: seq<string>, cs: seq<Column>, v0m: map<string, int>, v1m: map<string, int>,
                          w0m: map<string, int>, w1m: map<string, int>)
    requires Distinct(fields) && |cs| == |fields|
    requires forall i :: 0 <= i < |cs| ==> Apart(cs[i])
    requires RecordedIn(fields, cs, v0m, v1m)
    requires Reordered(v0m, v1m, w0m, w1m)
    ensures OrderedIn(fields, cs, w0m, w1m)
    ensures StrictlyOrdered(w0m, w1m)
  {
  }

  function Min(a: int, b: int): (m: int)
    ensures m <= a && m <= b && (m == a || m == b)
  {
    if a <= b then a else b
  }

  function Max(a: int, b: int): (m: int)
    ensures m >= a && m >= b && (m == a || m == b)
  {
    if a <= b then b else a
  }

  /** What a later observation does to the recorded sentinels. */
  lemma ObserveSentinels(c: Column, s: string, isDouble: string -> bool)
    ensures Observe(c, s, isDouble).low == if PutsLow(c, s) then Some(ByteValue(s)) else c.low
    ensures Observe(c, s, isDouble).high == if PutsHigh(c, s) then Some(ByteValue(s)) else c.high
  {
  }

  /** One parse keeps the maps in step with the columns, when field names are distinct. */
  lemma RecordedObserve(fields: seq<string>, cs: seq<Column>, i: nat, s: string, isDouble: string -> bool,
                        v0m: map<string, int>, v1m: map<string, int>)
    requires |cs| == |fields| && i < |fields| && Distinct(fields) && RecordedIn(fields, cs, v0m, v1m)
    ensures RecordedIn(fields, cs[i := Observe(cs[i], s, isDouble)],
      if PutsLow(cs[i], s) then v0m[fields[i] := ByteValue(s)] else v0m,
      if PutsHigh(cs[i], s) then v1m[fields[i] := ByteValue(s)] else v1m)
  {
    ObserveSentinels(cs[i], s, isDouble);
  }

  /** Each data line split on tabs, as loadTest does with line.split("\t"). */
  function SplitRows(rows: seq<string>): (r: seq<seq<string>>)
    ensures |r| == |rows| && forall k :: 0 <= k < |rows| ==> r[k] == JavaSplit(rows[k], '\t')
  {
    seq(|rows|, k requires 0 <= k < |rows| => JavaSplit(rows[k], '\t'))
  }

  /** Every row has at least n values. */
  predicate LongEnough(rows: seq<seq<string>>, n: nat) {
    forall k :: 0 <= k < |rows| ==> n <= |rows[k]|
  }

  /** The state of every one of n columns after all rows. */
  function Columns(rows: seq<seq<string>>, n: nat, isDouble: string -> bool): (cs: seq<Column>)
    requires LongEnough(rows, n)
    ensures |cs| == n && forall i :: 0 <= i < n ==> cs[i] == ScanFrom(Initial, ColumnValues(rows, i), isDouble)
  {
    seq(n, i requires 0 <= i < n => ScanFrom(Initial, ColumnValues(rows, i), isDouble))
  }

  /** Appending one row extends every column's value list by that row's value. */
  lemma ColumnValuesSnoc(rows: seq<seq<string>>, k: nat, i: nat)
    requires k < |rows| && LongEnough(rows[..k + 1], i + 1)
    ensures ColumnValues(rows[..k + 1], i) == ColumnValues(rows[..k], i) + [rows[k][i]]
  {
  }

  /** One more row: every column observes its value of that row. */
  lemma ColumnsStep(rows: seq<seq<string>>, k: nat, n: nat, isDouble: string -> bool, before: seq<Column>, after: seq<Column>)
    requires k < |rows| && LongEnough(rows[..k + 1], n)
    requires LongEnough(rows[..k], n) && before == Columns(rows[..k], n, isDouble)
    requires |after| == n && forall j :: 0 <= j < n ==> after[j] == Observe(before[j], rows[k][j], isDouble)
    ensures after == Columns(rows[..k + 1], n, isDouble)
  {
    forall j | 0 <= j < n
      ensures after[j] == ScanFrom(Initial, ColumnValues(rows[..k + 1], j), isDouble)
    {
      ColumnValuesSnoc(rows, k, j);
    }
  }

  /** The columns after the first n values of a row went through parse. */
  function ObservedUpTo(cs: seq<Column>, row: seq<string>, n: nat, isDouble: string -> bool): (r: seq<Column>)
    requires n <= |cs| <= |row|
    ensures |r| == |cs|
    ensures forall j :: 0 <= j < n ==> r[j] == Observe(cs[j], row[j], isDouble)
    ensures forall j :: n <= j < |cs| ==> r[j] == cs[j]
  {
    seq(|cs|, j requires 0 <= j < |cs| => if j < n then Observe(cs[j], row[j], isDouble) else cs[j])
  }

  /** RecordedObserve, for a state and maps given by name. */
  lemma RecordedStep(fields: seq<string>, before: seq<Column>, after: seq<Column>,
                     b0: map<string, int>, b1: map<string, int>, a0: map<string, int>, a1: map<string, int>,
                     i: nat, s: string, isDouble: string -> bool)
    requires |before| == |fields| && i < |fields| && Distinct(fields) && RecordedIn(fields, before, b0, b1)
    requires after == before[i := Observe(before[i], s, isDouble)]
    requires a0 == if PutsLow(before[i], s) then b0[fields[i] := ByteValue(s)] else b0
    requires a1 == if PutsHigh(before[i], s) then b1[fields[i] := ByteValue(s)] else b1
    ensures RecordedIn(fields, after, a0, a1)
  {
    RecordedObserve(fields, before, i, s, isDouble, b0, b1);
  }

  lemma ObservedUpToStep(cs: seq<Column>, row: seq<string>, n: nat, isDouble: string -> bool)
    requires 0 < n <= |cs| <= |row|
    ensures var before := ObservedUpTo(cs, row, n - 1, isDouble);
      before[n - 1] == cs[n - 1]
      && before[n - 1 := Observe(before[n - 1], row[n - 1], isDouble)] == ObservedUpTo(cs, row, n, isDouble)
  {
    var before := ObservedUpTo(cs, row, n - 1, isDouble);
    assert before[n - 1 := Observe(before[n - 1], row[n - 1], isDouble)] == ObservedUpTo(cs, row, n, isDouble);
  }

  /** Column n - 1 puts its value when parse records it, on top of the earlier columns' puts. */
  lemma RowPutsStep(fields: seq<string>, cs: seq<Column>, row: seq<string>,
                    m0: map<string, int>, m1: map<string, int>, n: nat)
    requires |cs| == |fields| && 0 < n <= |fields| <= |row|
    ensures var b0 := RowPuts(fields, cs, row, m0, true, n - 1);
      RowPuts(fields, cs, row, m0, true, n)
        == if PutsLow(cs[n - 1], row[n - 1]) then b0[fields[n - 1] := ByteValue(row[n - 1])] else b0
    ensures var b1 := RowPuts(fields, cs, row, m1, false, n - 1);
      RowPuts(fields, cs, row, m1, false, n)
        == if PutsHigh(cs[n - 1], row[n - 1]) then b1[fields[n - 1] := ByteValue(row[n - 1])] else b1
  {
  }

  /**
   * With distinct field names, the puts of the first n values of a row keep
   * the maps holding exactly the columns' sentinels.
   */
  lemma {:induction false} RowPutsRecorded(fields: seq<string>, cs: seq<Column>, row: seq<string>,
                                           m0: map<string, int>, m1: map<string, int>, n: nat, isDouble: string -> bool)
    requires |cs| == |fields| && n <= |fields| <= |row|
    requires Distinct(fields) && RecordedIn(fields, cs, m0, m1)
    ensures RecordedIn(fields, ObservedUpTo(cs, row, n, isDouble),
                       RowPuts(fields, cs, row, m0, true, n), RowPuts(fields, cs, row, m1, false, n))
    decreases n
  {
    if n == 0 {
      assert ObservedUpTo(cs, row, 0, isDouble) == cs;
    } else {
      RowPutsRecorded(fields, cs, row, m0, m1, n - 1, isDouble);
      RowPutsRecordedStep(fields, cs, row, m0, m1, n, isDouble);
    }
  }

  /** One more column of the row keeps the maps in step with the columns. */
  lemma RowPutsRecordedStep(fields: seq<string>, cs: seq<Column>, row: seq<string>,
                            m0: map<string, int>, m1: map<string, int>, n: nat, isDouble: string -> bool)
    requires |cs| == |fields| && 0 < n <= |fields| <= |row| && Distinct(fields)
    requires RecordedIn(fields, ObservedUpTo(cs, row, n - 1, isDouble),
                        RowPuts(fields, cs, row, m0, true, n - 1), RowPuts(fields, cs, row, m1, false, n - 1))
    ensures RecordedIn(fields, ObservedUpTo(cs, row, n, isDouble),
                       RowPuts(fields, cs, row, m0, true, n), RowPuts(fields, cs, row, m1, false, n))
  {
    var before, after := ObservedUpTo(cs, row, n - 1, isDouble), ObservedUpTo(cs, row, n, isDouble);
    var b0, b1 := RowPuts(fields, cs, row, m0, true, n - 1), RowPuts(fields, cs, row, m1, false, n - 1);
    var a0, a1 := RowPuts(fields, cs, row, m0, true, n), RowPuts(fields, cs, row, m1, false, n);
    assert RecordedIn(fields, before, b0, b1);
    ObservedUpToStep(cs, row, n, isDouble);
    RowPutsStep(fields, cs, row, m0, m1, n);
    assert after == before[n - 1 := Observe(before[n - 1], row[n - 1], isDouble)];
    assert a0 == if PutsLow(before[n - 1], row[n - 1]) then b0[fields[n - 1] := ByteValue(row[n - 1])] else b0;
    assert a1 == if PutsHigh(before[n - 1], row[n - 1]) then b1[fields[n - 1] := ByteValue(row[n - 1])] else b1;
    assert |before| == |fields|;
    RecordedStep(fields, before, after, b0, b1, a0, a1, n - 1, row[n - 1], isDouble);
  }

  /** With distinct field names, the maps of every put hold exactly the scanned columns' sentinels. */
  lemma {:induction false} SentinelMapRecorded(fields: seq<string>, rows: seq<seq<string>>, isDouble: string -> bool)
    requires LongEnough(rows, |fields|) && Distinct(fields)
    ensures RecordedIn(fields, Columns(rows, |fields|, isDouble),
                       SentinelMap(fields, rows, isDouble, true), SentinelMap(fields, rows, isDouble, false))
    decreases |rows|
  {
    var n := |fields|;
    if rows != [] {
      var k := |rows| - 1;
      assert LongEnough(rows[..k], n);
      SentinelMapRecorded(fields, rows[..k], isDouble);
      var cs := Columns(rows[..k], n, isDouble);
      RowPutsRecorded(fields, cs, rows[k], SentinelMap(fields, rows[..k], isDouble, true),
                      SentinelMap(fields, rows[..k], isDouble, false), n, isDouble);
      assert rows[..k + 1] == rows;
      ColumnsStep(rows, k, n, isDouble, cs, ObservedUpTo(cs, rows[k], n, isDouble));
    }
  }

  /** Whether parse puts the value of column c into v0m (low) or into v1m (not low). */
  predicate Puts(c: Column, s: string, low: bool) {
    if low then PutsLow(c, s) else PutsHigh(c, s)
  }

  /**
   * The puts of one data line into v0m (low) or v1m (not low), starting
   * from m: columns 0 to n - 1 in order, each column that records a
   * sentinel putting it under its field name, so that a later column of the
   * same name overwrites an earlier one. cs holds the columns before the line.
   */
  function RowPuts(fields: seq<string>, cs: seq<Column>, row: seq<string>, m: map<string, int>, low: bool, n: nat)
    : (r: map<string, int>)
    requires |cs| == |fields| && n <= |fields| <= |row|
    ensures forall f :: f in r ==> f in m || f in fields
    decreases n
  {
    if n == 0 then m
    else
      var r0 := RowPuts(fields, cs, row, m, low, n - 1);
      if Puts(cs[n - 1], row[n - 1], low) then r0[fields[n - 1] := ByteValue(row[n - 1])] else r0
  }

  /**
   * v0m (low) or v1m (not low) after loadTest's scan loop, before the
   * ordering loop: the puts of every data line in turn, whether or not the
   * field names repeat.
   */
  function SentinelMap(fields: seq<string>, rows: seq<seq<string>>, isDouble: string -> bool, low: bool)
    : (r: map<string, int>)
    requires LongEnough(rows, |fields|)
    ensures forall f :: f in r ==> f in fields
    decreases |rows|
  {
    if rows == [] then map[]
    else
      var k := |rows| - 1;
      assert LongEnough(rows[..k], |fields|);
      RowPuts(fields, Columns(rows[..k], |fields|, isDouble), rows[k], SentinelMap(fields, rows[..k], isDouble, low), low, |fields|)
  }

  /** A scan of one value is one observation. */
  lemma ScanOne(c: Column, v: string, isDouble: string -> bool)
    ensures ScanFrom(c, [v], isDouble) == Observe(c, v, isDouble)
  {
    assert [v][..0] == [];
  }

  /**
   * With a repeated field name the maps are no longer per column. Two
   * columns named X, a line of codes a, b and a line of codes b, b: the
   * second column overwrites X in v0m on the first line, and the first
   * column puts its high sentinel b under X on the second line.
   */
  lemma RepeatedNameSharesCode(p: string, q: string, a: int, b: int, isDouble: string -> bool)
    requires a != b && a != BYTE_MIN && b != BYTE_MIN
    requires IsCode(p, a) && IsCode(q, b)
    ensures SentinelMap(["X", "X"], [[p, q], [q, q]], isDouble, true) == map["X" := b]
    ensures SentinelMap(["X", "X"], [[p, q], [q, q]], isDouble, false) == map["X" := b]
  {
    var fields, rows := ["X", "X"], [[p, q], [q, q]];
    assert rows[..1] == [[p, q]] && rows[..1][..0] == [];
    var c0, c1 := Observe(Initial, p, isDouble), Observe(Initial, q, isDouble);
    assert ColumnValues(rows[..1], 0) == [p] && ColumnValues(rows[..1], 1) == [q];
    ScanOne(Initial, p, isDouble);
    ScanOne(Initial, q, isDouble);
    assert Columns(rows[..1][..0], 2, isDouble) == [Initial, Initial];
    assert Columns(rows[..1], 2, isDouble) == [c0, c1];
    assert SentinelMap(fields, rows[..1], isDouble, true) == map["X" := b];
    assert SentinelMap(fields, rows[..1], isDouble, false) == map[];
  }

  /** The result loadTest promises for the given fields and data lines. */
  ghost predicate LoadTestSpec(fields: seq<string>, rows: seq<seq<string>>, isDouble: string -> bool, r: Option<WaveTypes>) {
    && (r.None? <==> !LongEnough(rows, |fields|))
    && (r.Some? ==>
      var cs := Columns(rows, |fields|, isDouble);
      && r.value.fields == fields && |r.value.flags| == |fields|
      && (forall i :: 0 <= i < |fields| ==> r.value.flags[i] == Encode(cs[i].level))
      && Reordered(SentinelMap(fields, rows, isDouble, true), SentinelMap(fields, rows, isDouble, false),
                   r.value.v0m, r.value.v1m)
      && (Distinct(fields) ==> OrderedIn(fields, cs, r.value.v0m, r.value.v1m) && StrictlyOrdered(r.value.v0m, r.value.v1m)))
  }

  /**
   * loadTest for one wave: the header line and the data lines of its file.
   * A data line with fewer values than the header has fields makes the
   * source fail with an index out of bounds (None). Otherwise each field's
   * flags encode the level its column reached, and v0m/v1m hold the
   * column's sentinels, smaller first.
   */
  method LoadTest(header: string, wave: int, rows: seq<string>, isDouble: string -> bool) returns (r: Option<WaveTypes>)
    ensures LoadTestSpec(ParseHeader(header, wave), SplitRows(rows), isDouble, r)
  {
    var fields := ParseHeader(header, wave);
    var split := SplitRows(rows);
    r := ScanRows(fields, split, isDouble);
  }

  /** The scanning part of loadTest, once the header is parsed. */
  method ScanRows(fields: seq<string>, rows: seq<seq<string>>, isDouble: string -> bool) returns (r: Option<WaveTypes>)
    ensures LoadTestSpec(fields, rows, isDouble, r)
  {
    var st := new TypeScan(fields);
    var ok := st.ParseRows(rows, isDouble);
    if !ok {
      return None;
    }
    forall i | 0 <= i < |fields|
      ensures Apart(st.cols[i])
    {
      ScanKeepsSentinelsApart(ColumnValues(rows, i), isDouble);
    }
    if Distinct(fields) {
      SentinelMapRecorded(fields, rows, isDouble);
    }
    ghost var cs, m0, m1 := st.cols, st.v0m, st.v1m;
    var result := st.Finish();
    ScanResultMeetsSpec(fields, rows, isDouble, cs, m0, m1, result);
    r := Some(result);
  }

  /**
   * So loadTest's promise of strictly ordered maps needs distinct names: for
   * the two columns named X above, X ends with the same code b in v0m and
   * in v1m.
   */
  lemma RepeatedNameNotOrdered(p: string, q: string, a: int, b: int, isDouble: string -> bool, r: Option<WaveTypes>)
    requires a != b && a != BYTE_MIN && b != BYTE_MIN
    requires IsCode(p, a) && IsCode(q, b)
    requires LoadTestSpec(["X", "X"], [[p, q], [q, q]], isDouble, r)
    ensures r.Some? && r.value.v0m == map["X" := b] && r.value.v1m == map["X" := b]
    ensures !StrictlyOrdered(r.value.v0m, r.value.v1m)
  {
    RepeatedNameSharesCode(p, q, a, b, isDouble);
    assert LongEnough([[p, q], [q, q]], 2);
    assert "X" in r.value.v0m && "X" in r.value.v1m && r.value.v0m["X"] == r.value.v1m["X"];
  }

  /** Columns that followed every row, and a result built from them, are what loadTest promises. */
  lemma ScanResultMeetsSpec(fields: seq<string>, rows: seq<seq<string>>, isDouble: string -> bool,
                            cs: seq<Column>, v0m: map<string, int>, v1m: map<string, int>, w: WaveTypes)
    requires LongEnough(rows, |fields|) && |cs| == |fields|
    requires forall j :: 0 <= j < |fields| ==> cs[j] == ScanFrom(Initial, ColumnValues(rows, j), isDouble)
    requires v0m == SentinelMap(fields, rows, isDouble, true) && v1m == SentinelMap(fields, rows, isDouble, false)
    requires w.fields == fields && |w.flags| == |fields|
    requires forall i :: 0 <= i < |fields| ==> w.flags[i] == Encode(cs[i].level)
    requires Reordered(v0m, v1m, w.v0m, w.v1m)
    requires Distinct(fields) ==> OrderedIn(fields, cs, w.v0m, w.v1m) && StrictlyOrdered(w.v0m, w.v1m)
    ensures LoadTestSpec(fields, rows, isDouble, Some(w))
  {
    assert Columns(rows, |fields|, isDouble) == cs;
  }
}
