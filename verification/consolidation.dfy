/**
 * Per-wave type codes and their consolidation across waves
 * (WaASCG_Main.getFieldTypes).
 *
 * Each wave's flag arrays are turned into a map from field to type code;
 * the maps of all waves are then merged so that a field gets the most
 * general (smallest) code any wave gave it.
 */
module Consolidation {
  import opened JavaLang
  import opened Header
  import opened TypeInference

  /** The number of waves of the survey. */
  const NWAVES: nat := 5

  /**
   * The if/else cascade of getFieldTypes: the first set flag, in the order
   * strings, doubles, ints, shorts, bytes, booleans, gives the code; no set
   * flag at all is the "unrecognised type" branch, which puts nothing.
   */
  function FlagCode(f: Flags): (c: Option<int>)
    ensures c.Some? ==> 0 <= c.value <= 5
    ensures c.None? <==> CountSet(f) == 0
  {
    if f.strings then Some(0)
    else if f.doubles then Some(1)
    else if f.ints then Some(2)
    else if f.shorts then Some(3)
    else if f.bytes then Some(4)
    else if f.booleans then Some(5)
    else None
  }

  /** The cascade reads back exactly the code of the level loadTest encoded: the unrecognised branch is dead. */
  lemma FlagCodeDecodesEncode(l: Level)
    ensures FlagCode(Encode(l)) == Some(Code(l))
  {
  }

  /** The map one wave's loop builds: field i gets the code of flags i; a later column of the same name wins. */
  function WaveCodes(fields: seq<string>, flags: seq<Flags>): (m: map<string, int>)
    requires |flags| == |fields|
    decreases |fields|
  {
    if |fields| == 0 then map[]
    else
      var m := WaveCodes(fields[..|fields| - 1], flags[..|fields| - 1]);
      var c := FlagCode(flags[|fields| - 1]);
      if c.Some? then m[fields[|fields| - 1] := c.value] else m
  }

  /** Every recognised field is in the wave's map, with the code of its last column of that name. */
  lemma {:induction false} WaveCodesLastWins(fields: seq<string>, flags: seq<Flags>, i: nat)
    requires |flags| == |fields| && i < |fields| && FlagCode(flags[i]).Some?
    requires forall j :: i < j < |fields| ==> fields[j] != fields[i]
    ensures fields[i] in WaveCodes(fields, flags)
    ensures WaveCodes(fields, flags)[fields[i]] == FlagCode(flags[i]).value
    decreases |fields|
  {
    if i < |fields| - 1 {
      WaveCodesLastWins(fields[..|fields| - 1], flags[..|fields| - 1], i);
    }
  }

  /** Only header fields are keys, and every code is between 0 and 5. */
  lemma {:induction false} WaveCodesKeys(fields: seq<string>, flags: seq<Flags>)
    requires |flags| == |fields|
    ensures forall f :: f in WaveCodes(fields, flags) ==> f in fields && 0 <= WaveCodes(fields, flags)[f] <= 5
    decreases |fields|
  {
    if |fields| > 0 {
      WaveCodesKeys(fields[..|fields| - 1], flags[..|fields| - 1]);
    }
  }

  /** The first loop of getFieldTypes, for one wave. */
  method BuildWaveCodes(fields: seq<string>, flags: seq<Flags>) returns (fieldTypes: map<string, int>)
    requires |flags| == |fields|
    ensures fieldTypes == WaveCodes(fields, flags)
  {
    fieldTypes := map[];
    for i := 0 to |fields|
      invariant fieldTypes == WaveCodes(fields[..i], flags[..i])
    {
      assert fields[..i + 1][..i] == fields[..i] && flags[..i + 1][..i] == flags[..i];
      var field := fields[i];
      var f := flags[i];
      if f.strings {
        fieldTypes := fieldTypes[field := 0];
      } else if f.doubles {
        fieldTypes := fieldTypes[field := 1];
      } else if f.ints {
        fieldTypes := fieldTypes[field := 2];
      } else if f.shorts {
        fieldTypes := fieldTypes[field := 3];
      } else if f.bytes {
        fieldTypes := fieldTypes[field := 4];
      } else if f.booleans {
        fieldTypes := fieldTypes[field := 5];
      }
    }
    assert fields[..|fields|] == fields && flags[..|fields|] == flags;
  }

  /** One wave's map folded into the consolidated one: a shared field keeps the smaller code. */
  function Merge(acc: map<string, int>, m: map<string, int>): (r: map<string, int>)
    ensures r.Keys == acc.Keys + m.Keys
    ensures forall k :: k in r ==> (k in acc && r[k] == acc[k]) || (k in m && r[k] == m[k])
    ensures forall k :: k in acc ==> r[k] <= acc[k]
    ensures forall k :: k in m ==> r[k] <= m[k]
  {
    map k | k in acc.Keys + m.Keys :: MergedAt(acc, m, k)
  }

  /** The code Merge gives a field of either map. */
  function MergedAt(acc: map<string, int>, m: map<string, int>, k: string): int
    requires k in acc || k in m
  {
    if k in acc && k in m then Min(acc[k], m[k]) else if k in acc then acc[k] else m[k]
  }

  /** The consolidated map: the first wave's map merged with each later one in turn. */
  function Consolidated(ms: seq<map<string, int>>): map<string, int>
    requires |ms| >= 1
    decreases |ms|
  {
    if |ms| == 1 then ms[0] else Merge(Consolidated(ms[..|ms| - 1]), ms[|ms| - 1])
  }

  /** A field is in some wave's map. */
  predicate InSome(ms: seq<map<string, int>>, k: string) {
    exists w :: 0 <= w < |ms| && k in ms[w]
  }

  /** Consolidation keeps exactly the fields that some wave has. */
  lemma {:induction false} ConsolidatedKeys(ms: seq<map<string, int>>)
    requires |ms| >= 1
    ensures forall k :: k in Consolidated(ms) <==> InSome(ms, k)
    decreases |ms|
  {
    if |ms| > 1 {
      var init := ms[..|ms| - 1];
      ConsolidatedKeys(init);
      forall k
        ensures k in Consolidated(ms) <==> InSome(ms, k)
      {
        if InSome(init, k) {
          var w :| 0 <= w < |init| && k in init[w];
          assert k in ms[w];
        }
        if InSome(ms, k) {
          var w :| 0 <= w < |ms| && k in ms[w];
          if w < |ms| - 1 {
            assert k in init[w];
          }
        }
      }
    }
  }

  /** The consolidated code of a field is no larger than any wave's code for it. */
  lemma {:induction false} ConsolidatedIsLowerBound(ms: seq<map<string, int>>)
    requires |ms| >= 1
    ensures forall k, w :: 0 <= w < |ms| && k in ms[w] ==> k in Consolidated(ms) && Consolidated(ms)[k] <= ms[w][k]
    decreases |ms|
  {
    if |ms| > 1 {
      var init := ms[..|ms| - 1];
      ConsolidatedIsLowerBound(init);
      forall k, w | 0 <= w < |ms| && k in ms[w]
        ensures k in Consolidated(ms) && Consolidated(ms)[k] <= ms[w][k]
      {
        if w < |ms| - 1 {
          assert ms[w] == init[w];
        }
      }
    }
  }

  /** The consolidated code of a field is the code some wave gave it. */
  lemma {:induction false} ConsolidatedIsAttained(ms: seq<map<string, int>>)
    requires |ms| >= 1
    ensures forall k :: k in Consolidated(ms) ==>
      exists w :: 0 <= w < |ms| && k in ms[w] && Consolidated(ms)[k] == ms[w][k]
    decreases |ms|
  {
    if |ms| > 1 {
      var init := ms[..|ms| - 1];
      ConsolidatedIsAttained(init);
      var c := Consolidated(init);
      forall k | k in Consolidated(ms)
        ensures exists w :: 0 <= w < |ms| && k in ms[w] && Consolidated(ms)[k] == ms[w][k]
      {
        if k in c && Consolidated(ms)[k] == c[k] {
          var w :| 0 <= w < |init| && k in init[w] && c[k] == init[w][k];
          assert ms[w] == init[w];
        } else {
          assert k in ms[|ms| - 1];
        }
      }
    }
  }

  /**
   * Consolidation keeps exactly the fields of all waves, and gives each the
   * smallest code any wave gave it: a code some wave gave, and no larger
   * than any wave's.
   */
  lemma ConsolidatedIsMinimum(ms: seq<map<string, int>>, k: string)
    requires |ms| >= 1
    ensures k in Consolidated(ms) <==> InSome(ms, k)
    ensures k in Consolidated(ms) ==>
      && (forall w :: 0 <= w < |ms| && k in ms[w] ==> Consolidated(ms)[k] <= ms[w][k])
      && (exists w :: 0 <= w < |ms| && k in ms[w] && Consolidated(ms)[k] == ms[w][k])
  {
    ConsolidatedKeys(ms);
    ConsolidatedIsLowerBound(ms);
    ConsolidatedIsAttained(ms);
  }

  /** A field every wave types the same keeps that type. */
  lemma ConsolidatedAgreement(ms: seq<map<string, int>>, k: string, code: int)
    requires |ms| >= 1
    requires forall w :: 0 <= w < |ms| ==> k in ms[w] && ms[w][k] == code
    ensures k in Consolidated(ms) && Consolidated(ms)[k] == code
  {
    ConsolidatedIsLowerBound(ms);
    ConsolidatedIsAttained(ms);
  }

  /**
   * The second part of getFieldTypes: a copy of the first wave's map, then
   * each later wave merged in.
   */
  method Consolidate(ms: seq<map<string, int>>) returns (r: map<string, int>)
    requires |ms| >= 1
    ensures r == Consolidated(ms)
  {
    r := ms[0];
    for w := 1 to |ms|
      invariant r == Consolidated(ms[..w])
    {
      r := MergeWave(r, ms[w]);
      assert ms[..w + 1][..w] == ms[..w];
    }
    assert ms[..|ms|] == ms;
  }

  /**
   * One wave of the second part of getFieldTypes: every key of the wave's
   * map, visited in whatever order its key set yields them, is added or
   * lowered to the smaller code.
   */
  method MergeWave(consolidated: map<string, int>, fieldTypes: map<string, int>) returns (r: map<string, int>)
    ensures r == Merge(consolidated, fieldTypes)
  {
    r := consolidated;
    var todo := fieldTypes.Keys;
    while todo != {}
      invariant todo <= fieldTypes.Keys
      invariant r.Keys == consolidated.Keys + (fieldTypes.Keys - todo)
      invariant forall k :: k in r ==>
        r[k] == if k in fieldTypes && k !in todo then MergedAt(consolidated, fieldTypes, k) else consolidated[k]
      decreases todo
    {
      var field :| field in todo;
      var fieldType := fieldTypes[field];
      if field in r {
        var consolidatedFieldType := r[field];
        if fieldType != consolidatedFieldType {
          r := r[field := Min(fieldType, consolidatedFieldType)];
        }
      } else {
        r := r[field := fieldType];
      }
      todo := todo - {field};
    }
  }

  /** The flags loadTest reports for a wave whose lines are all long enough. */
  function ExpectedFlags(fields: seq<string>, rows: seq<seq<string>>, isDouble: string -> bool): (fs: seq<Flags>)
    requires LongEnough(rows, |fields|)
    ensures |fs| == |fields|
    ensures forall i :: 0 <= i < |fields| ==> fs[i] == Encode(Columns(rows, |fields|, isDouble)[i].level)
  {
    var cs := Columns(rows, |fields|, isDouble);
    seq(|fields|, i requires 0 <= i < |fields| => Encode(cs[i].level))
  }

  /** What getFieldTypes returns: consolidated codes, headers, and each wave's sentinel maps. */
  datatype FieldTypes = FieldTypes(fieldTypes: map<string, int>, headers: seq<seq<string>>,
                                   v0ms: seq<map<string, int>>, v1ms: seq<map<string, int>>)

  /** The data lines of every wave up to w are long enough for its header. */
  predicate WavesLoad(headerLines: seq<string>, data: seq<seq<string>>, w: nat)
    requires w <= |headerLines| && w <= |data|
  {
    forall v :: 0 <= v < w ==> LongEnough(SplitRows(data[v]), |ParseHeader(headerLines[v], v + 1)|)
  }

  /** The data lines of every wave up to w are long enough for its header. */
  lemma WavesLoadStep(headerLines: seq<string>, data: seq<seq<string>>, w: nat)
    requires w < |headerLines| && w < |data| && WavesLoad(headerLines, data, w)
    requires LongEnough(SplitRows(data[w]), |ParseHeader(headerLines[w], w + 1)|)
    ensures WavesLoad(headerLines, data, w + 1)
  {
  }

  /** The fields of waves 1 to |headers|, as parseHeader gives them. */
  predicate HeadersParsed(headerLines: seq<string>, headers: seq<seq<string>>)
    requires |headers| <= |headerLines|
  {
    forall v :: 0 <= v < |headers| ==> headers[v] == ParseHeader(headerLines[v], v + 1)
  }

  lemma HeadersParsedStep(headerLines: seq<string>, headers: seq<seq<string>>, fields: seq<string>)
    requires |headers| < |headerLines| && HeadersParsed(headerLines, headers)
    requires fields == ParseHeader(headerLines[|headers|], |headers| + 1)
    ensures HeadersParsed(headerLines, headers + [fields])
  {
  }

  /** The map of codes of a wave with the given header and data lines. */
  function WaveMap(header: seq<string>, lines: seq<string>, isDouble: string -> bool): map<string, int>
    requires LongEnough(SplitRows(lines), |header|)
  {
    WaveCodes(header, ExpectedFlags(header, SplitRows(lines), isDouble))
  }

  /**
   * What getFieldTypes keeps of one wave, given its header: the data lines
   * fit; the sentinel maps are the scan's puts, each pair ordered; and, when
   * the header names are distinct, they hold the ordered sentinels of its
   * columns, the smaller strictly first.
   */
  ghost predicate WaveResult(header: seq<string>, lines: seq<string>, isDouble: string -> bool,
                             v0m: map<string, int>, v1m: map<string, int>)
  {
    && LongEnough(SplitRows(lines), |header|)
    && Reordered(SentinelMap(header, SplitRows(lines), isDouble, true),
                 SentinelMap(header, SplitRows(lines), isDouble, false), v0m, v1m)
    && (Distinct(header) ==>
      OrderedIn(header, Columns(SplitRows(lines), |header|, isDouble), v0m, v1m) && StrictlyOrdered(v0m, v1m))
  }

  /** A wave that loads gives its parsed header, its map of codes and its ordered sentinels. */
  lemma LoadedWave(header: seq<string>, lines: seq<string>, isDouble: string -> bool, t: Option<WaveTypes>)
    requires LoadTestSpec(header, SplitRows(lines), isDouble, t) && t.Some?
    ensures t.value.fields == header && |t.value.flags| == |header|
    ensures WaveResult(header, lines, isDouble, t.value.v0m, t.value.v1m)
    ensures t.value.flags == ExpectedFlags(header, SplitRows(lines), isDouble)
  {
  }

  /** The first loop of getFieldTypes after |all| waves: each wave's map and sentinel maps. */
  ghost predicate WavesDone(headers: seq<seq<string>>, data: seq<seq<string>>, isDouble: string -> bool,
                            all: seq<map<string, int>>, v0ms: seq<map<string, int>>, v1ms: seq<map<string, int>>)
  {
    && |headers| <= |data| && |all| == |headers| && |v0ms| == |headers| && |v1ms| == |headers|
    && forall v :: 0 <= v < |headers| ==>
      WaveResult(headers[v], data[v], isDouble, v0ms[v], v1ms[v]) && all[v] == WaveMap(headers[v], data[v], isDouble)
  }

  lemma {:induction false} WavesDoneStep(headers: seq<seq<string>>, data: seq<seq<string>>, isDouble: string -> bool,
                      all: seq<map<string, int>>, v0ms: seq<map<string, int>>, v1ms: seq<map<string, int>>,
                      header: seq<string>, m: map<string, int>, v0m: map<string, int>, v1m: map<string, int>)
    requires WavesDone(headers, data, isDouble, all, v0ms, v1ms) && |headers| < |data|
    requires WaveResult(header, data[|headers|], isDouble, v0m, v1m)
    requires m == WaveMap(header, data[|headers|], isDouble)
    ensures WavesDone(headers + [header], data, isDouble, all + [m], v0ms + [v0m], v1ms + [v1m])
  {
    var hs, ms, zs, os := headers + [header], all + [m], v0ms + [v0m], v1ms + [v1m];
    forall v | 0 <= v < |hs|
      ensures WaveResult(hs[v], data[v], isDouble, zs[v], os[v]) && ms[v] == WaveMap(hs[v], data[v], isDouble)
    {
      if v < |headers| {
        WaveKept(headers[v], data[v], isDouble, all[v], v0ms[v], v1ms[v], hs[v], data[v], ms[v], zs[v], os[v]);
      } else {
        WaveKept(header, data[|headers|], isDouble, m, v0m, v1m, hs[v], data[v], ms[v], zs[v], os[v]);
      }
    }
  }

  /** The results of one wave carry over to equal names for them. */
  lemma WaveKept(header: seq<string>, lines: seq<string>, isDouble: string -> bool,
                 m: map<string, int>, v0m: map<string, int>, v1m: map<string, int>,
                 header': seq<string>, lines': seq<string>, m': map<string, int>, v0m': map<string, int>, v1m': map<string, int>)
    requires WaveResult(header, lines, isDouble, v0m, v1m) && m == WaveMap(header, lines, isDouble)
    requires header' == header && lines' == lines && m' == m && v0m' == v0m && v1m' == v1m
    ensures WaveResult(header', lines', isDouble, v0m', v1m') && m' == WaveMap(header', lines', isDouble)
  {
  }

  /** The maps of all waves, for headers whose data lines fit. */
  function WaveMaps(headers: seq<seq<string>>, data: seq<seq<string>>, isDouble: string -> bool): (ms: seq<map<string, int>>)
    requires |headers| <= |data| && forall v :: 0 <= v < |headers| ==> LongEnough(SplitRows(data[v]), |headers[v]|)
    ensures |ms| == |headers|
  {
    seq(|headers|, v requires 0 <= v < |headers| => WaveMap(headers[v], data[v], isDouble))
  }

  lemma WavesDoneMaps(headers: seq<seq<string>>, data: seq<seq<string>>, isDouble: string -> bool,
                      all: seq<map<string, int>>, v0ms: seq<map<string, int>>, v1ms: seq<map<string, int>>)
    requires WavesDone(headers, data, isDouble, all, v0ms, v1ms)
    ensures forall v :: 0 <= v < |headers| ==> LongEnough(SplitRows(data[v]), |headers[v]|)
    ensures all == WaveMaps(headers, data, isDouble)
  {
  }

  /** What getFieldTypes returns when every wave loads. */
  ghost predicate FieldTypesSpec(headerLines: seq<string>, data: seq<seq<string>>, isDouble: string -> bool, r: FieldTypes)
    requires |headerLines| == NWAVES && |data| == NWAVES
  {
    && |r.headers| == NWAVES && |r.v0ms| == NWAVES && |r.v1ms| == NWAVES
    && HeadersParsed(headerLines, r.headers)
    && (forall w :: 0 <= w < NWAVES ==> WaveResult(r.headers[w], data[w], isDouble, r.v0ms[w], r.v1ms[w]))
    && r.fieldTypes == Consolidated(WaveMaps(r.headers, data, isDouble))
  }

  /**
   * The names getFieldTypes returns come from parseHeader, so they hold no
   * lower-case letter, and every name with a sentinel is a name of its
   * wave's header.
   */
  lemma FieldTypesNames(headerLines: seq<string>, data: seq<seq<string>>, isDouble: string -> bool, r: FieldTypes)
    requires |headerLines| == NWAVES && |data| == NWAVES
    requires FieldTypesSpec(headerLines, data, isDouble, r)
    ensures forall w, k, j :: 0 <= w < NWAVES && 0 <= k < |r.headers[w]| && 0 <= j < |r.headers[w][k]| ==>
      !IsLower(r.headers[w][k][j])
    ensures forall w, f :: 0 <= w < NWAVES && f in r.v0ms[w] ==> f in r.headers[w]
    ensures forall w, f :: 0 <= w < NWAVES && f in r.v1ms[w] ==> f in r.headers[w]
  {
    forall w | 0 <= w < NWAVES
      ensures forall k, j :: 0 <= k < |r.headers[w]| && 0 <= j < |r.headers[w][k]| ==> !IsLower(r.headers[w][k][j])
      ensures forall f :: f in r.v0ms[w] ==> f in r.headers[w]
      ensures forall f :: f in r.v1ms[w] ==> f in r.headers[w]
    {
      assert r.headers[w] == ParseHeader(headerLines[w], w + 1);
      assert WaveResult(r.headers[w], data[w], isDouble, r.v0ms[w], r.v1ms[w]);
    }
  }

  /**
   * getFieldTypes: every wave is loaded (wave w + 1 from header line and
   * data lines w); a wave whose data does not fit its header aborts the
   * whole computation (None). Otherwise the codes are the consolidation of
   * the waves' maps, returned with every wave's header and sentinel maps.
   */
  method GetFieldTypes(headerLines: seq<string>, data: seq<seq<string>>, isDouble: string -> bool)
    returns (r: Option<FieldTypes>)
    requires |headerLines| == NWAVES && |data| == NWAVES
    ensures r.None? <==> !WavesLoad(headerLines, data, NWAVES)
    ensures r.Some? ==> FieldTypesSpec(headerLines, data, isDouble, r.value)
  {
    var all: seq<map<string, int>> := [];
    var headers: seq<seq<string>> := [];
    var v0ms: seq<map<string, int>> := [];
    var v1ms: seq<map<string, int>> := [];
    for w := 0 to NWAVES
      invariant |headers| == w
      invariant WavesLoad(headerLines, data, w)
      invariant HeadersParsed(headerLines, headers)
      invariant WavesDone(headers, data, isDouble, all, v0ms, v1ms)
    {
      var t := LoadTest(headerLines[w], w + 1, data[w], isDouble);
      ghost var hw := ParseHeader(headerLines[w], w + 1);
      if t.None? {
        return None;
      }
      LoadedWave(hw, data[w], isDouble, t);
      var fields := t.value.fields;
      var fieldTypes := BuildWaveCodes(fields, t.value.flags);
      WavesLoadStep(headerLines, data, w);
      HeadersParsedStep(headerLines, headers, fields);
      WavesDoneStep(headers, data, isDouble, all, v0ms, v1ms, fields, fieldTypes, t.value.v0m, t.value.v1m);
      all := all + [fieldTypes];
      headers := headers + [fields];
      v0ms := v0ms + [t.value.v0m];
      v1ms := v1ms + [t.value.v1m];
    }
    var consolidated := Consolidate(all);
    WavesDoneMaps(headers, data, isDouble, all, v0ms, v1ms);
    r := Some(FieldTypes(consolidated, headers, v0ms, v1ms));
  }
}
