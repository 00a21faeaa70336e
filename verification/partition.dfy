/**
 * The partition of field names by the waves that share them
 * (WaASCG_Main.getFields and getFieldsInCommon).
 *
 * Groups 0 to 4 end up holding the fields particular to one wave's class,
 * group 5 the fields of all five waves, group 6 those shared by waves 1 and
 * 2 only, group 7 those shared by waves 3, 4 and 5 only, and group 8 those
 * shared by waves 4 and 5 but not 3. Group g holds the fields of the g-th
 * generated class.
 */
module Partition {
  import opened JavaLang

  /** getFields(String[]): the names of one header, as a set. */
  function FieldSet(fields: seq<string>): (r: set<string>)
    ensures forall f :: f in r <==> f in fields
    ensures |r| <= |fields|
  {
    if |fields| == 0 then {}
    else FieldSet(fields[..|fields| - 1]) + {fields[|fields| - 1]}
  }

  /**
   * getFieldsInCommon: the fields of s1 that are also in s2 and in each of
   * s3, s4 and s5 that is given (a missing set is null in the source).
   */
  function FieldsInCommon(s1: set<string>, s2: set<string>, s3: Option<set<string>>,
                          s4: Option<set<string>>, s5: Option<set<string>>): (r: set<string>)
    ensures forall f :: f in r <==>
      && f in s1 && f in s2
      && (s3.Some? ==> f in s3.value) && (s4.Some? ==> f in s4.value) && (s5.Some? ==> f in s5.value)
  {
    var r := s1 * s2;
    var r := if s3.Some? then r * s3.value else r;
    var r := if s4.Some? then r * s4.value else r;
    if s5.Some? then r * s5.value else r
  }

  /** The sets of the five waves' headers. */
  function WaveSets(headers: seq<seq<string>>): (ws: seq<set<string>>)
    requires |headers| == 5
    ensures |ws| == 5 && forall w :: 0 <= w < 5 ==> ws[w] == FieldSet(headers[w])
  {
    seq(5, w requires 0 <= w < 5 => FieldSet(headers[w]))
  }

  /** The fields of all five waves. */
  function AllFive(ws: seq<set<string>>): set<string>
    requires |ws| == 5
  {
    ws[0] * ws[1] * ws[2] * ws[3] * ws[4]
  }

  /**
   * What the nine groups hold, as differences of the waves' sets: the
   * removals in getFields leave wave 1 with the fields wave 2 lacks, wave 3
   * with those not in both 4 and 5, wave 4 with those wave 5 lacks, and
   * so on.
   */
  function Groups(ws: seq<set<string>>): (g: seq<set<string>>)
    requires |ws| == 5
    ensures |g| == 9
  {
    var all := AllFive(ws);
    [ ws[0] - ws[1],
      ws[1] - ws[0],
      ws[2] - ws[3] * ws[4],
      ws[3] - ws[4],
      ws[4] - ws[3],
      all,
      ws[0] * ws[1] - all,
      ws[2] * ws[3] * ws[4] - all,
      ws[3] * ws[4] - ws[2] ]
  }

  /**
   * getFields(String[][]): the nine groups of the five headers, computed as
   * the source does: intersections first, then the removals that cut the
   * shared fields out of groups 6, 7, 8 and of the five wave sets.
   */
  method GetFields(headers: seq<seq<string>>) returns (r: seq<set<string>>)
    requires |headers| == 5
    ensures r == Groups(WaveSets(headers))
  {
    var r0, r1, r2, r3, r4 := FieldSet(headers[0]), FieldSet(headers[1]), FieldSet(headers[2]),
                              FieldSet(headers[3]), FieldSet(headers[4]);
    ghost var ws := WaveSets(headers);
    var r5 := FieldsInCommon(r0, r1, Some(r2), Some(r3), Some(r4));
    var r6 := FieldsInCommon(r0, r1, None, None, None);
    r6 := r6 - r5;
    var r7 := FieldsInCommon(r2, r3, Some(r4), None, None);
    r7 := r7 - r5;
    var r8 := FieldsInCommon(r3, r4, None, None, None);
    r8 := r8 - r5;
    r8 := r8 - r7;
    r0 := r0 - r5;
    r0 := r0 - r6;
    r1 := r1 - r5;
    r1 := r1 - r6;
    r2 := r2 - r5;
    r2 := r2 - r7;
    r3 := r3 - r5;
    r3 := r3 - r7;
    r3 := r3 - r8;
    r4 := r4 - r5;
    r4 := r4 - r7;
    r4 := r4 - r8;
    r := [r0, r1, r2, r3, r4, r5, r6, r7, r8];
    SharedGroups(ws);
    WaveGroups(ws);
  }

  /** The intersections and removals that give groups 5 to 8. */
  lemma SharedGroups(ws: seq<set<string>>)
    requires |ws| == 5
    ensures FieldsInCommon(ws[0], ws[1], Some(ws[2]), Some(ws[3]), Some(ws[4])) == Groups(ws)[5]
    ensures FieldsInCommon(ws[0], ws[1], None, None, None) - Groups(ws)[5] == Groups(ws)[6]
    ensures FieldsInCommon(ws[2], ws[3], Some(ws[4]), None, None) - Groups(ws)[5] == Groups(ws)[7]
    ensures FieldsInCommon(ws[3], ws[4], None, None, None) - Groups(ws)[5] - Groups(ws)[7] == Groups(ws)[8]
  {
  }

  /** The removals that cut the five wave sets down to groups 0 to 4. */
  lemma WaveGroups(ws: seq<set<string>>)
    requires |ws| == 5
    ensures ws[0] - Groups(ws)[5] - Groups(ws)[6] == Groups(ws)[0]
    ensures ws[1] - Groups(ws)[5] - Groups(ws)[6] == Groups(ws)[1]
    ensures ws[2] - Groups(ws)[5] - Groups(ws)[7] == Groups(ws)[2]
    ensures ws[3] - Groups(ws)[5] - Groups(ws)[7] - Groups(ws)[8] == Groups(ws)[3]
    ensures ws[4] - Groups(ws)[5] - Groups(ws)[7] - Groups(ws)[8] == Groups(ws)[4]
  {
  }

  /**
   * The groups a wave's record class inherits from: the wave's own class,
   * then up its chain of abstract classes (W1W2 or W4W5 and W3W4W5, then
   * W1W2W3W4W5).
   */
  function Chain(w: nat): (c: seq<nat>)
    requires w < 5
    ensures forall i :: 0 <= i < |c| ==> c[i] < 9
  {
    match w
    case 0 => [0, 6, 5]
    case 1 => [1, 6, 5]
    case 2 => [2, 7, 5]
    case 3 => [3, 8, 7, 5]
    case 4 => [4, 8, 7, 5]
  }

  /**
   * Along every wave's chain the groups are pairwise disjoint and together
   * hold exactly the wave's fields: each field of a wave is declared once
   * in the classes a wave record inherits from, and no other field is.
   */
  lemma ChainPartitionsWave(ws: seq<set<string>>, w: nat)
    requires |ws| == 5 && w < 5
    ensures forall i, j :: 0 <= i < j < |Chain(w)| ==> Groups(ws)[Chain(w)[i]] * Groups(ws)[Chain(w)[j]] == {}
    ensures forall f :: f in ws[w] <==> exists i :: 0 <= i < |Chain(w)| && f in Groups(ws)[Chain(w)[i]]
  {
    var g := Groups(ws);
    var c := Chain(w);
    forall f | f in ws[w]
      ensures exists i :: 0 <= i < |c| && f in g[c[i]]
    {
      if w == 3 || w == 4 {
        if f !in g[c[0]] && f !in g[c[1]] && f !in g[c[2]] { assert f in g[c[3]]; }
      } else {
        if f !in g[c[0]] && f !in g[c[1]] { assert f in g[c[2]]; }
      }
    }
  }

  /** The W1W2 and W3W4W5 groups never share a field. */
  lemma SharedPairsApart(ws: seq<set<string>>)
    requires |ws| == 5
    ensures Groups(ws)[6] * Groups(ws)[7] == {}
  {
  }

  /**
   * The groups are not pairwise disjoint overall: a field of waves 1, 2, 4
   * and 5 that wave 3 lacks is in both the W1W2 and the W4W5 group.
   */
  lemma GroupsOverlap()
    ensures var ws := [{"A"}, {"A"}, {}, {"A"}, {"A"}];
            "A" in Groups(ws)[6] && "A" in Groups(ws)[8]
  {
    var ws: seq<set<string>> := [{"A"}, {"A"}, {}, {"A"}, {"A"}];
    assert "A" !in AllFive(ws);
  }

  // ---------------------------------------------------------------------
  // TreeSet iteration order

  /** x is the first element of s in TreeSet order (String.compareTo). */
  predicate IsLeast(x: string, s: set<string>) {
    x in s && forall y :: y in s && y != x ==> StrLess(x, y)
  }

  /** Every non-empty set of names has a first one. */
  lemma {:induction false} LeastExists(s: set<string>)
    requires s != {}
    ensures exists x :: IsLeast(x, s)
    decreases |s|
  {
    var y :| y in s;
    var rest := s - {y};
    if rest == {} {
      assert s == {y};
      assert IsLeast(y, s);
    } else {
      LeastExists(rest);
      var x :| IsLeast(x, rest);
      StrLessTotal(x, y);
      if StrLess(y, x) {
        forall z | z in s && z != y ensures StrLess(y, z) {
          if z != x { StrLessTransitive(y, x, z); }
        }
        assert IsLeast(y, s);
      } else {
        assert IsLeast(x, s);
      }
    }
  }

  /** The first element is unique. */
  lemma LeastUnique(x: string, y: string, s: set<string>)
    requires IsLeast(x, s) && IsLeast(y, s)
    ensures x == y
  {
    if x != y {
      StrLessTransitive(x, y, x);
      StrLessIrreflexive(x);
    }
  }
}
