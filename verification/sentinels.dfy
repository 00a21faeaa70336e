/**
 * Reconciliation of the boolean sentinels across waves
 * (WaASCG_Main.setCommonBooleanMaps).
 *
 * For every field of all five waves that is still typed boolean (code 5),
 * the waves that recorded a low sentinel for it are visited in wave order:
 * the first fixes the low value returned, the second fixes the high value
 * the later ones are compared with, and any disagreement demotes the field
 * to byte (code 4).
 */
module Sentinels {
  import opened JavaLang
  import opened Partition

  /** The progress of one field through the waves. */
  datatype Reconcile = Reconcile(low: Option<int>, high: Option<int>, demoted: bool)

  /** A wave's high sentinel for f; a missing one counts as Byte.MIN_VALUE. */
  function HighOf(v1m: map<string, int>, f: string): int {
    if f in v1m then v1m[f] else BYTE_MIN
  }

  /** One wave that recorded low sentinel v0 and high sentinel v1 for the field. */
  function Step(st: Reconcile, v0: int, v1: int): Reconcile {
    if st.low.None? then st.(low := Some(v0))
    else
      var demoted := st.demoted || st.low.value != v0;
      if st.high.None? then Reconcile(st.low, Some(v1), demoted)
      else Reconcile(st.low, st.high, demoted || v1 != st.high.value)
  }

  /** Field f after waves 0 to n - 1, in wave order. */
  function Reconciled(f: string, v0ms: seq<map<string, int>>, v1ms: seq<map<string, int>>, n: nat): Reconcile
    requires n <= |v0ms| <= |v1ms|
  {
    if n == 0 then Reconcile(None, None, false)
    else
      var st := Reconciled(f, v0ms, v1ms, n - 1);
      if f in v0ms[n - 1] then Step(st, v0ms[n - 1][f], HighOf(v1ms[n - 1], f)) else st
  }

  /** The waves below n that recorded a low sentinel for f, in order. */
  function Records(f: string, v0ms: seq<map<string, int>>, n: nat): (rs: seq<nat>)
    requires n <= |v0ms|
    ensures forall i :: 0 <= i < |rs| ==> rs[i] < n && f in v0ms[rs[i]]
  {
    if n == 0 then []
    else
      var rs := Records(f, v0ms, n - 1);
      if f in v0ms[n - 1] then rs + [n - 1] else rs
  }

  /** The records are in wave order and miss no wave that recorded f. */
  lemma {:induction false} RecordsInOrder(f: string, v0ms: seq<map<string, int>>, n: nat)
    requires n <= |v0ms|
    ensures forall i, j :: 0 <= i < j < |Records(f, v0ms, n)| ==> Records(f, v0ms, n)[i] < Records(f, v0ms, n)[j]
    ensures forall w :: 0 <= w < n && f in v0ms[w] ==> w in Records(f, v0ms, n)
  {
    if n > 0 {
      RecordsInOrder(f, v0ms, n - 1);
    }
  }

  /** Some recording wave's low sentinel differs from the first one's. */
  predicate LowsDiffer(f: string, v0ms: seq<map<string, int>>, rs: seq<nat>)
    requires forall i :: 0 <= i < |rs| ==> rs[i] < |v0ms| && f in v0ms[rs[i]]
  {
    exists i :: 0 < i < |rs| && v0ms[rs[i]][f] != v0ms[rs[0]][f]
  }

  /** Some recording wave after the second has a high sentinel that differs from the second's. */
  predicate HighsDiffer(f: string, v1ms: seq<map<string, int>>, rs: seq<nat>)
    requires forall i :: 0 <= i < |rs| ==> rs[i] < |v1ms|
  {
    exists i :: 1 < i < |rs| && HighOf(v1ms[rs[i]], f) != HighOf(v1ms[rs[1]], f)
  }

  /**
   * The sentinels reconciliation keeps for field f, in terms of the waves
   * that recorded it: the low sentinel of the first, the high sentinel of
   * the second.
   */
  lemma {:induction false} ReconciledSentinels(f: string, v0ms: seq<map<string, int>>, v1ms: seq<map<string, int>>, n: nat)
    requires n <= |v0ms| <= |v1ms|
    ensures var st, rs := Reconciled(f, v0ms, v1ms, n), Records(f, v0ms, n);
      && (st.low.Some? <==> |rs| >= 1)
      && (|rs| >= 1 ==> st.low.value == v0ms[rs[0]][f])
      && (st.high.Some? <==> |rs| >= 2)
      && (|rs| >= 2 ==> st.high.value == HighOf(v1ms[rs[1]], f))
  {
    if n > 0 {
      ReconciledSentinels(f, v0ms, v1ms, n - 1);
      var prev, ps := Reconciled(f, v0ms, v1ms, n - 1), Records(f, v0ms, n - 1);
      if f in v0ms[n - 1] {
        var rs := ps + [n - 1];
        assert Records(f, v0ms, n) == rs;
        assert Reconciled(f, v0ms, v1ms, n) == Step(prev, v0ms[n - 1][f], HighOf(v1ms[n - 1], f));
        assert |ps| >= 1 ==> rs[0] == ps[0];
        assert |ps| >= 2 ==> rs[1] == ps[1];
      } else {
        assert Records(f, v0ms, n) == ps;
        assert Reconciled(f, v0ms, v1ms, n) == prev;
      }
    }
  }

  /**
   * Reconciliation demotes field f exactly when a recording wave's low
   * sentinel differs from the first one's, or a recording wave after the
   * second has a high sentinel that differs from the second's.
   */
  lemma {:induction false} ReconciledDemotion(f: string, v0ms: seq<map<string, int>>, v1ms: seq<map<string, int>>, n: nat)
    requires n <= |v0ms| <= |v1ms|
    ensures Reconciled(f, v0ms, v1ms, n).demoted <==>
      LowsDiffer(f, v0ms, Records(f, v0ms, n)) || HighsDiffer(f, v1ms, Records(f, v0ms, n))
  {
    if n > 0 {
      ReconciledDemotion(f, v0ms, v1ms, n - 1);
      var prev, ps := Reconciled(f, v0ms, v1ms, n - 1), Records(f, v0ms, n - 1);
      if f in v0ms[n - 1] {
        ReconciledSentinels(f, v0ms, v1ms, n - 1);
        var rs := ps + [n - 1];
        assert Records(f, v0ms, n) == rs;
        assert Reconciled(f, v0ms, v1ms, n) == Step(prev, v0ms[n - 1][f], HighOf(v1ms[n - 1], f));
        if |ps| == 0 {
          assert !LowsDiffer(f, v0ms, rs) && !HighsDiffer(f, v1ms, rs);
        } else {
          assert rs[..|ps|] == ps;
          PrefixDiffers(f, v0ms, v1ms, ps, rs);
        }
      } else {
        assert Records(f, v0ms, n) == ps;
        assert Reconciled(f, v0ms, v1ms, n) == prev;
      }
    }
  }

  /** Appending one recording wave: a difference among the earlier ones stays, a new one involves the last. */
  lemma PrefixDiffers(f: string, v0ms: seq<map<string, int>>, v1ms: seq<map<string, int>>, ps: seq<nat>, rs: seq<nat>)
    requires |v0ms| <= |v1ms| && |ps| > 0 && |rs| == |ps| + 1 && rs[..|ps|] == ps
    requires forall i :: 0 <= i < |rs| ==> rs[i] < |v0ms| && f in v0ms[rs[i]]
    ensures LowsDiffer(f, v0ms, rs) <==> LowsDiffer(f, v0ms, ps) || v0ms[rs[|ps|]][f] != v0ms[rs[0]][f]
    ensures |ps| > 1 ==>
      (HighsDiffer(f, v1ms, rs) <==> HighsDiffer(f, v1ms, ps) || HighOf(v1ms[rs[|ps|]], f) != HighOf(v1ms[rs[1]], f))
    ensures |ps| == 1 ==> !HighsDiffer(f, v1ms, rs)
  {
    assert forall i :: 0 <= i < |ps| ==> rs[i] == ps[i];
    if LowsDiffer(f, v0ms, rs) {
      var i :| 0 < i < |rs| && v0ms[rs[i]][f] != v0ms[rs[0]][f];
      if i < |ps| {
        assert v0ms[ps[i]][f] != v0ms[ps[0]][f];
      }
    }
    if HighsDiffer(f, v1ms, rs) && |ps| > 1 {
      var i :| 1 < i < |rs| && HighOf(v1ms[rs[i]], f) != HighOf(v1ms[rs[1]], f);
      if i < |ps| {
        assert HighOf(v1ms[ps[i]], f) != HighOf(v1ms[ps[1]], f);
      }
    }
  }

  /** The first wave, in wave order, that recorded a low sentinel for f supplies the one returned. */
  lemma FirstRecordedLow(f: string, v0ms: seq<map<string, int>>, v1ms: seq<map<string, int>>)
    requires |v0ms| <= |v1ms|
    ensures var st := Reconciled(f, v0ms, v1ms, |v0ms|);
      && (st.low.Some? <==> exists w :: 0 <= w < |v0ms| && f in v0ms[w])
      && (st.low.Some? ==> exists w :: 0 <= w < |v0ms| && f in v0ms[w] && st.low.value == v0ms[w][f]
                                       && forall u :: 0 <= u < w ==> f !in v0ms[u])
  {
    ReconciledSentinels(f, v0ms, v1ms, |v0ms|);
    RecordsInOrder(f, v0ms, |v0ms|);
    var rs := Records(f, v0ms, |v0ms|);
    if |rs| >= 1 {
      var w := rs[0];
      forall u | 0 <= u < w ensures f !in v0ms[u] {
      }
    }
  }

  /** Every name of the common set that matches a recorded name ignoring case is that name. */
  predicate CaseExact(common: set<string>, v0ms: seq<map<string, int>>) {
    forall w, k, f :: 0 <= w < |v0ms| && k in v0ms[w] && f in common && EqualsIgnoreCase(f, k) ==> f == k
  }

  /**
   * On upper-case names equalsIgnoreCase is equality: when the five headers
   * hold no lower-case letter and every recorded name is a name of its
   * wave's header, the names in common match recorded names exactly.
   */
  lemma UpperHeadersCaseExact(headers: seq<seq<string>>, v0ms: seq<map<string, int>>)
    requires |headers| == 5 && |v0ms| == 5
    requires forall w, k, j :: 0 <= w < 5 && 0 <= k < |headers[w]| && 0 <= j < |headers[w][k]| ==>
      !IsLower(headers[w][k][j])
    requires forall w, f :: 0 <= w < 5 && f in v0ms[w] ==> f in headers[w]
    ensures CaseExact(Groups(WaveSets(headers))[5], v0ms)
  {
    var common := Groups(WaveSets(headers))[5];
    forall w, k, f | 0 <= w < |v0ms| && k in v0ms[w] && f in common && EqualsIgnoreCase(f, k)
      ensures f == k
    {
      assert f in headers[0];
      EqualsIgnoreCaseOnUpper(f, k);
    }
  }

  /** The codes after setCommonBooleanMaps: a common boolean field that was demoted becomes a byte. */
  function ReconciledTypes(common: set<string>, fieldTypes: map<string, int>,
                           v0ms: seq<map<string, int>>, v1ms: seq<map<string, int>>): map<string, int>
    requires |v0ms| <= |v1ms|
  {
    map f | f in fieldTypes ::
      if f in common && fieldTypes[f] == 5 && Reconciled(f, v0ms, v1ms, |v0ms|).demoted then 4 else fieldTypes[f]
  }

  /** The map setCommonBooleanMaps returns: each common boolean field's reconciled low sentinel. */
  function CommonLows(common: set<string>, fieldTypes: map<string, int>,
                      v0ms: seq<map<string, int>>, v1ms: seq<map<string, int>>): map<string, int>
    requires |v0ms| <= |v1ms|
  {
    map f | f in common && f in fieldTypes && fieldTypes[f] == 5 && Reconciled(f, v0ms, v1ms, |v0ms|).low.Some? ::
      Reconciled(f, v0ms, v1ms, |v0ms|).low.value
  }

  /** Every code of after is that of before or 4, and a new key has 4. */
  predicate OnlyDemoted(before: map<string, int>, after: map<string, int>) {
    && (forall k :: k in before ==> k in after && (after[k] == before[k] || after[k] == 4))
    && (forall k :: k in after && k !in before ==> after[k] == 4)
  }

  lemma OnlyDemotedTransitive(a: map<string, int>, b: map<string, int>, c: map<string, int>)
    requires OnlyDemoted(a, b) && OnlyDemoted(b, c)
    ensures OnlyDemoted(a, c)
  {
  }

  /** The state of field f held in the maps, for a field whose code was 5. */
  function StateOf(f: string, types: map<string, int>, v0m1: map<string, int>, v1m1: map<string, int>): Reconcile {
    Reconcile(if f in v0m1 then Some(v0m1[f]) else None,
              if f in v1m1 then Some(v1m1[f]) else None,
              f in types && types[f] == 4)
  }

  /** The three maps agree with each other outside f. */
  ghost predicate SameExcept(f: string, a: map<string, int>, b: map<string, int>) {
    forall k :: k != f ==> (k in a <==> k in b) && (k in a ==> a[k] == b[k])
  }

  /**
   * setCommonBooleanMaps: the common fields are visited in TreeSet order;
   * a field whose current code is 5 is reconciled over the waves. The
   * returned pair is the map of low sentinels and the updated codes.
   */
  method SetCommonBooleanMaps(v0ms: seq<map<string, int>>, v1ms: seq<map<string, int>>,
                              common: set<string>, fieldTypes: map<string, int>)
    returns (v0m1: map<string, int>, types: map<string, int>)
    requires |v0ms| <= |v1ms|
    requires common <= fieldTypes.Keys
    ensures OnlyDemoted(fieldTypes, types)
    ensures CaseExact(common, v0ms) ==>
      types == ReconciledTypes(common, fieldTypes, v0ms, v1ms) && v0m1 == CommonLows(common, fieldTypes, v0ms, v1ms)
  {
    types := fieldTypes;
    v0m1 := map[];
    var v1m1: map<string, int> := map[];
    var todo := common;
    while todo != {}
      invariant todo <= common
      invariant OnlyDemoted(fieldTypes, types)
      invariant CaseExact(common, v0ms) ==> Progress(common - todo, common, fieldTypes, v0ms, v1ms, types, v0m1, v1m1)
      decreases todo
    {
      LeastExists(todo);
      var field0 :| IsLeast(field0, todo);
      ghost var done := common - todo;
      if types[field0] == 5 {
        var t, a, b := ReconcileField(field0, v0ms, v1ms, types, v0m1, v1m1);
        OnlyDemotedTransitive(fieldTypes, types, t);
        if CaseExact(common, v0ms) {
          ProgressStep(done, field0, common, fieldTypes, v0ms, v1ms, types, v0m1, v1m1, t, a, b);
        }
        types, v0m1, v1m1 := t, a, b;
      } else if CaseExact(common, v0ms) {
        ProgressSkip(done, field0, common, fieldTypes, v0ms, v1ms, types, v0m1, v1m1);
      }
      todo := todo - {field0};
    }
    if CaseExact(common, v0ms) {
      ProgressDone(common, fieldTypes, v0ms, v1ms, types, v0m1, v1m1);
    }
  }

  /** After the fields of done: those fields reconciled, every other field untouched. */
  ghost predicate Progress(done: set<string>, common: set<string>, fieldTypes: map<string, int>,
                           v0ms: seq<map<string, int>>, v1ms: seq<map<string, int>>,
                           types: map<string, int>, v0m1: map<string, int>, v1m1: map<string, int>)
    requires |v0ms| <= |v1ms|
  {
    && types.Keys == fieldTypes.Keys
    && (forall f :: f in fieldTypes ==>
         types[f] == (if f in done && fieldTypes[f] == 5 && Reconciled(f, v0ms, v1ms, |v0ms|).demoted then 4 else fieldTypes[f]))
    && (forall f :: f in v0m1 <==> f in done && f in fieldTypes && fieldTypes[f] == 5 && Reconciled(f, v0ms, v1ms, |v0ms|).low.Some?)
    && (forall f :: f in v0m1 ==> v0m1[f] == Reconciled(f, v0ms, v1ms, |v0ms|).low.value)
    && (forall f :: f in v1m1 ==> f in done)
  }

  lemma ProgressStep(done: set<string>, f: string, common: set<string>, fieldTypes: map<string, int>,
                     v0ms: seq<map<string, int>>, v1ms: seq<map<string, int>>,
                     types: map<string, int>, v0m1: map<string, int>, v1m1: map<string, int>,
                     types': map<string, int>, v0m1': map<string, int>, v1m1': map<string, int>)
    requires |v0ms| <= |v1ms| && f in common && f !in done && common <= fieldTypes.Keys
    requires Progress(done, common, fieldTypes, v0ms, v1ms, types, v0m1, v1m1)
    requires types[f] == 5
    requires SameExcept(f, types, types') && SameExcept(f, v0m1, v0m1') && SameExcept(f, v1m1, v1m1')
    requires StateOf(f, types', v0m1', v1m1') == Reconciled(f, v0ms, v1ms, |v0ms|)
    requires f in types' && (types'[f] == 4 || types'[f] == 5)
    ensures Progress(done + {f}, common, fieldTypes, v0ms, v1ms, types', v0m1', v1m1')
  {
  }

  lemma ProgressSkip(done: set<string>, f: string, common: set<string>, fieldTypes: map<string, int>,
                     v0ms: seq<map<string, int>>, v1ms: seq<map<string, int>>,
                     types: map<string, int>, v0m1: map<string, int>, v1m1: map<string, int>)
    requires |v0ms| <= |v1ms| && f in common && f !in done && common <= fieldTypes.Keys
    requires Progress(done, common, fieldTypes, v0ms, v1ms, types, v0m1, v1m1)
    requires types[f] != 5
    ensures Progress(done + {f}, common, fieldTypes, v0ms, v1ms, types, v0m1, v1m1)
  {
  }

  lemma ProgressDone(common: set<string>, fieldTypes: map<string, int>,
                     v0ms: seq<map<string, int>>, v1ms: seq<map<string, int>>,
                     types: map<string, int>, v0m1: map<string, int>, v1m1: map<string, int>)
    requires |v0ms| <= |v1ms| && Progress(common, common, fieldTypes, v0ms, v1ms, types, v0m1, v1m1)
    ensures types == ReconciledTypes(common, fieldTypes, v0ms, v1ms)
    ensures v0m1 == CommonLows(common, fieldTypes, v0ms, v1ms)
  {
  }

  /**
   * The body of setCommonBooleanMaps for one field0 of code 5: every wave
   * in order, and in each every recorded name equal to field0 ignoring
   * case, in whatever order the map's key set yields them.
   */
  method ReconcileField(field0: string, v0ms: seq<map<string, int>>, v1ms: seq<map<string, int>>,
                        types: map<string, int>, v0m1: map<string, int>, v1m1: map<string, int>)
    returns (types': map<string, int>, v0m1': map<string, int>, v1m1': map<string, int>)
    requires |v0ms| <= |v1ms|
    ensures OnlyDemoted(types, types')
    ensures (forall w, k :: 0 <= w < |v0ms| && k in v0ms[w] && EqualsIgnoreCase(field0, k) ==> k == field0)
            && field0 !in v0m1 && field0 !in v1m1 && field0 in types && types[field0] == 5 ==>
      && SameExcept(field0, types, types') && SameExcept(field0, v0m1, v0m1') && SameExcept(field0, v1m1, v1m1')
      && field0 in types' && (types'[field0] == 4 || types'[field0] == 5)
      && StateOf(field0, types', v0m1', v1m1') == Reconciled(field0, v0ms, v1ms, |v0ms|)
  {
    ghost var exact := (forall w, k :: 0 <= w < |v0ms| && k in v0ms[w] && EqualsIgnoreCase(field0, k) ==> k == field0)
                       && field0 !in v0m1 && field0 !in v1m1 && field0 in types && types[field0] == 5;
    types', v0m1', v1m1' := types, v0m1, v1m1;
    for w := 0 to |v0ms|
      invariant OnlyDemoted(types, types')
      invariant exact ==> Tracks(field0, types, v0m1, v1m1, types', v0m1', v1m1', Reconciled(field0, v0ms, v1ms, w))
    {
      ghost var t0, a0, b0 := types', v0m1', v1m1';
      types', v0m1', v1m1' := ReconcileWave(field0, v0ms[w], v1ms[w], types', v0m1', v1m1');
      OnlyDemotedTransitive(types, t0, types');
      if exact {
        assert forall k :: k in v0ms[w] && EqualsIgnoreCase(field0, k) ==> k == field0;
        TracksTransitive(field0, types, v0m1, v1m1, t0, a0, b0, types', v0m1', v1m1',
                         Reconciled(field0, v0ms, v1ms, w + 1));
      }
    }
  }

  /**
   * The inner loop of setCommonBooleanMaps for one wave: every recorded name
   * equal to field0 ignoring case, in whatever order the map's key set
   * yields them. When field0 is the only such name, its state takes one
   * step if the wave recorded it and stays as it was otherwise.
   */
  method ReconcileWave(field0: string, v0m: map<string, int>, v1m: map<string, int>,
                       types: map<string, int>, v0m1: map<string, int>, v1m1: map<string, int>)
    returns (types': map<string, int>, v0m1': map<string, int>, v1m1': map<string, int>)
    ensures OnlyDemoted(types, types')
    ensures (forall k :: k in v0m && EqualsIgnoreCase(field0, k) ==> k == field0)
            && field0 in types && (types[field0] == 4 || types[field0] == 5) ==>
      Tracks(field0, types, v0m1, v1m1, types', v0m1', v1m1',
             if field0 in v0m then Step(StateOf(field0, types, v0m1, v1m1), v0m[field0], HighOf(v1m, field0))
             else StateOf(field0, types, v0m1, v1m1))
  {
    ghost var exact := (forall k :: k in v0m && EqualsIgnoreCase(field0, k) ==> k == field0)
                       && field0 in types && (types[field0] == 4 || types[field0] == 5);
    ghost var before := StateOf(field0, types, v0m1, v1m1);
    types', v0m1', v1m1' := types, v0m1, v1m1;
    var keys := v0m.Keys;
    while keys != {}
      invariant keys <= v0m.Keys
      invariant OnlyDemoted(types, types')
      invariant exact ==> Tracks(field0, types, v0m1, v1m1, types', v0m1', v1m1',
        if field0 in v0m && field0 !in keys then Step(before, v0m[field0], HighOf(v1m, field0)) else before)
      decreases keys
    {
      var field1 :| field1 in keys;
      if EqualsIgnoreCase(field0, field1) {
        ghost var t0 := types';
        types', v0m1', v1m1' := RecordWave(field1, v0m[field1], HighOf(v1m, field1), types', v0m1', v1m1');
        OnlyDemotedTransitive(types, t0, types');
      }
      keys := keys - {field1};
    }
  }

  lemma TracksTransitive(f: string, types: map<string, int>, v0m1: map<string, int>, v1m1: map<string, int>,
                         t0: map<string, int>, a0: map<string, int>, b0: map<string, int>,
                         t1: map<string, int>, a1: map<string, int>, b1: map<string, int>, st: Reconcile)
    requires SameExcept(f, types, t0) && SameExcept(f, v0m1, a0) && SameExcept(f, v1m1, b0)
    requires Tracks(f, t0, a0, b0, t1, a1, b1, st)
    ensures Tracks(f, types, v0m1, v1m1, t1, a1, b1, st)
  {
  }

  /**
   * One recorded name field1 of a wave, with the wave's low sentinel v0 and
   * high sentinel v1: the first sighting is kept as the low sentinel, the
   * second also seeds the high one, and a differing value demotes to 4.
   */
  method RecordWave(field1: string, v0: int, v1: int,
                    types: map<string, int>, v0m1: map<string, int>, v1m1: map<string, int>)
    returns (types': map<string, int>, v0m1': map<string, int>, v1m1': map<string, int>)
    ensures OnlyDemoted(types, types')
    ensures SameExcept(field1, types, types') && SameExcept(field1, v0m1, v0m1') && SameExcept(field1, v1m1, v1m1')
    ensures field1 in types && (types[field1] == 4 || types[field1] == 5) ==>
      && field1 in types' && (types'[field1] == 4 || types'[field1] == 5)
      && StateOf(field1, types', v0m1', v1m1') == Step(StateOf(field1, types, v0m1, v1m1), v0, v1)
  {
    types', v0m1', v1m1' := types, v0m1, v1m1;
    if field1 !in v0m1 {
      v0m1' := v0m1[field1 := v0];
    } else {
      var v01 := v0m1[field1];
      if v01 != v0 {
        types' := types'[field1 := 4];
      }
      if field1 !in v1m1 {
        v1m1' := v1m1[field1 := v1];
      } else {
        var v11 := v1m1[field1];
        if v1 != v11 {
          types' := types'[field1 := 4];
        }
      }
    }
  }

  /** The maps hold state st for field0 and are otherwise as they were. */
  ghost predicate Tracks(field0: string, types: map<string, int>, v0m1: map<string, int>, v1m1: map<string, int>,
                         types': map<string, int>, v0m1': map<string, int>, v1m1': map<string, int>, st: Reconcile) {
    && SameExcept(field0, types, types') && SameExcept(field0, v0m1, v0m1') && SameExcept(field0, v1m1, v1m1')
    && field0 in types' && (types'[field0] == 4 || types'[field0] == 5)
    && StateOf(field0, types', v0m1', v1m1') == st
  }
}
