/**
 * Header normalisation (WaASCG_Main.parseHeader): the tab-separated header
 * line of one wave becomes the sequence of field names shared across waves.
 * The wave suffix W<wave> is stripped at the end of a name and next to '_',
 * while the case and person identifiers CASEW<wave> and PERSONW<wave> are
 * protected by placeholders and keep their suffix.
 */
module Header {
  import opened JavaLang

  const PLACEHOLDER1: string := "uniqueString1"
  const PLACEHOLDER2: string := "uniqueString2"

  /** "W" + wave */
  function WaveSuffix(wave: int): string {
    "W" + DecimalText(wave)
  }

  /** One text operation of parseHeader. */
  datatype Rewrite =
    | UpperCase                                          // String.toUpperCase
    | Append(suffix: string)                             // h + suffix
    | Replace(pattern: string, replacement: string)      // String.replaceAll, literal pattern
    | TrimBoth                                           // String.trim

  /** Every Replace has a non-empty pattern. */
  predicate WellFormed(steps: seq<Rewrite>) {
    forall i :: 0 <= i < |steps| && steps[i].Replace? ==> |steps[i].pattern| > 0
  }

  function Apply(s: string, step: Rewrite): string
    requires step.Replace? ==> |step.pattern| > 0
  {
    match step
    case UpperCase => ToUpper(s)
    case Append(suffix) => s + suffix
    case Replace(p, r) => ReplaceAll(s, p, r)
    case TrimBoth => Trim(s)
  }

  /** The steps applied one after the other, first to last. */
  function RewriteAll(s: string, steps: seq<Rewrite>): string
    requires WellFormed(steps)
    decreases |steps|
  {
    if |steps| == 0 then s else RewriteAll(Apply(s, steps[0]), steps[1..])
  }

  /**
   * The first text operations of parseHeader: upper-case; tabs become " ,"
   * and a space is appended so every name ends in a space; the two
   * identifiers are swapped for placeholders.
   */
  function Prepare(ws: string): (steps: seq<Rewrite>)
    ensures WellFormed(steps)
  {
    [ UpperCase,
      Replace("\t", " ,"),
      Append(" "),
      Replace("CASE" + ws, PLACEHOLDER1),
      Replace("PERSON" + ws, PLACEHOLDER2) ]
  }

  /** Then the wave suffix is removed at name ends and next to '_'. */
  function StripSuffix(ws: string): (steps: seq<Rewrite>)
    ensures WellFormed(steps)
  {
    [ Replace(ws + " ", " "),
      Replace(" " + ws, " "),
      Replace(ws + "_", "_"),
      Replace("_" + ws, "_"),
      Replace(ws + " ", "___" + ws + " ") ]
  }

  /** Last, trim, " ," back to tabs and the identifiers back in place. */
  function Restore(ws: string): (steps: seq<Rewrite>)
    ensures WellFormed(steps)
  {
    [ TrimBoth,
      Replace(" ,", "\t"),
      Replace(PLACEHOLDER1, "CASE" + ws),
      Replace(PLACEHOLDER2, "PERSON" + ws) ]
  }

  /** The text operations of parseHeader, in order. */
  function HeaderSteps(wave: int): (steps: seq<Rewrite>)
    ensures WellFormed(steps)
  {
    var ws := WaveSuffix(wave);
    Prepare(ws) + StripSuffix(ws) + Restore(ws)
  }

  /** A run of texts, each the previous one rewritten by the next step, ends where RewriteAll does. */
  lemma {:induction false} RewriteTrace(ts: seq<string>, steps: seq<Rewrite>)
    requires WellFormed(steps) && |ts| == |steps| + 1
    requires forall i :: 0 <= i < |steps| ==> Apply(ts[i], steps[i]) == ts[i + 1]
    ensures RewriteAll(ts[0], steps) == ts[|steps|]
    decreases |steps|
  {
    if |steps| > 0 {
      assert WellFormed(steps[1..]) by {
        forall i | 0 <= i < |steps| - 1 && steps[1..][i].Replace?
          ensures |steps[1..][i].pattern| > 0
        {
          assert steps[1..][i] == steps[i + 1];
        }
      }
      forall i | 0 <= i < |steps| - 1
        ensures Apply(ts[1..][i], steps[1..][i]) == ts[1..][i + 1]
      {
        assert ts[1..][i] == ts[i + 1] && steps[1..][i] == steps[i + 1];
      }
      RewriteTrace(ts[1..], steps[1..]);
    }
  }

  /** Running two lists of steps one after the other. */
  lemma {:induction false} RewriteAllAppend(s: string, x: seq<Rewrite>, y: seq<Rewrite>)
    requires WellFormed(x) && WellFormed(y)
    ensures WellFormed(x + y)
    ensures RewriteAll(s, x + y) == RewriteAll(RewriteAll(s, x), y)
    decreases |x|
  {
    assert WellFormed(x + y) by {
      forall i | 0 <= i < |x + y| && (x + y)[i].Replace? ensures |(x + y)[i].pattern| > 0 {
        if i >= |x| { assert (x + y)[i] == y[i - |x|]; }
      }
    }
    if |x| > 0 {
      assert (x + y)[1..] == x[1..] + y;
      assert WellFormed(x[1..]) by {
        forall i | 0 <= i < |x| - 1 && x[1..][i].Replace? ensures |x[1..][i].pattern| > 0 {
          assert x[1..][i] == x[i + 1];
        }
      }
      assert (x + y)[0] == x[0];
      RewriteAllAppend(Apply(s, x[0]), x[1..], y);
    } else {
      assert x + y == y;
    }
  }

  /** The text parseHeader splits on tabs. */
  function NormalisedText(header: string, wave: int): string {
    RewriteAll(header, HeaderSteps(wave))
  }

  /**
   * parseHeader(header, wave): the normalised text split on tabs. The names
   * hold no tab and, as the header was upper-cased, no lower-case letter.
   */
  function ParseHeader(header: string, wave: int): (r: seq<string>)
    ensures forall k, j :: 0 <= k < |r| && 0 <= j < |r[k]| ==> r[k][j] != '\t'
    ensures forall k, j :: 0 <= k < |r| && 0 <= j < |r[k]| ==> !IsLower(r[k][j])
  {
    var h := NormalisedText(header, wave);
    PiecesHaveNoSeparator(h, '\t');
    NormalisedUpper(header, wave);
    PiecesChars(h, '\t');
    JavaSplit(h, '\t')
  }

  /**
   * The uniqueness test on the placeholders looks for mixed-case text in an
   * upper-cased header: it can never fire, so it never interrupts the
   * normalisation (and it only logs when it would).
   */
  lemma PlaceholderNeverClashes(header: string)
    ensures !Contains(ToUpper(header), PLACEHOLDER1)
    ensures !Contains(ToUpper(header), PLACEHOLDER2)
  {
    var h := ToUpper(header);
    forall i | 0 <= i <= |h| - 13
      ensures !StartsWith(h[i..], PLACEHOLDER1) && !StartsWith(h[i..], PLACEHOLDER2)
    {
      assert h[i..][1] == h[i + 1] && !IsLower(h[i + 1]);
    }
  }

  // ---------------------------------------------------------------------
  // a header made of the two identifiers and one more name, step by step

  /** 'W' followed by digits, with a '-' first for a negative wave. */
  predicate SuffixLike(ws: string) {
    |ws| >= 2 && ws[0] == 'W' &&
    forall i :: 1 <= i < |ws| ==> ws[i] == '-' || IsDigit(ws[i])
  }

  /** Every wave suffix has that shape. */
  lemma WaveSuffixShape(wave: int)
    ensures SuffixLike(WaveSuffix(wave))
  {
    var d := DecimalText(wave);
    assert WaveSuffix(wave) == "W" + d;
    if wave < 0 {
      assert d == "-" + NatText(-wave);
    }
  }

  /** An upper-case name sharing no letter C, E or W with the identifiers and the suffix. */
  predicate PlainName(name: string) {
    |name| > 0 &&
    forall i :: 0 <= i < |name| ==>
      'A' <= name[i] <= 'Z' && name[i] != 'C' && name[i] != 'E' && name[i] != 'W'
  }

  /** Which characters a wave suffix and a plain name cannot hold. */
  lemma SuffixAndNameChars(ws: string, name: string)
    requires SuffixLike(ws) && PlainName(name)
    ensures forall c :: c in ws && c != 'W' ==> c == '-' || IsDigit(c)
    ensures '\t' !in ws && ' ' !in ws && ',' !in ws && 'C' !in ws && 'E' !in ws && 'u' !in ws
    ensures '\t' !in name && ' ' !in name && ',' !in name && 'C' !in name && 'E' !in name
    ensures 'W' !in name && 'u' !in name && '1' !in name
  {
    forall c | c in ws && c != 'W' ensures c == '-' || IsDigit(c) {
      var i :| 0 <= i < |ws| && ws[i] == c;
    }
  }

  /** Upper-casing leaves such a header as it is. */
  lemma IdentifierHeaderUpperCase(ws: string, name: string)
    requires SuffixLike(ws) && PlainName(name)
    ensures ToUpper(("CASE" + ws) + "\t" + ("PERSON" + ws) + "\t" + name + ws)
         == ("CASE" + ws) + "\t" + ("PERSON" + ws) + "\t" + name + ws
  {
    ToUpperUnchanged(("CASE" + ws) + "\t" + ("PERSON" + ws) + "\t" + name + ws);
  }

  /** The two tabs become " ,". */
  lemma IdentifierHeaderTabs(ws: string, name: string)
    requires SuffixLike(ws) && PlainName(name)
    ensures ReplaceAll(("CASE" + ws) + "\t" + ("PERSON" + ws) + "\t" + name + ws, "\t", " ,")
         == ("CASE" + ws) + " ," + ("PERSON" + ws) + " ," + name + ws
  {
    var a, b := "CASE" + ws, "PERSON" + ws;
    SuffixAndNameChars(ws, name);
    MissingCharNotContained(name + ws, "\t", '\t');
    assert '\t' !in a;
    assert '\t' !in b;
    assert a + "\t" + b + "\t" + name + ws == a + "\t" + b + "\t" + (name + ws);
    ReplaceBetween(a, b, name + ws, "\t", " ,");
    assert a + " ," + b + " ," + (name + ws) == a + " ," + b + " ," + name + ws;
  }

  /** Regrouping a concatenation after its first part. */
  lemma Regroup(a: string, u: string, v: string, w: string, x: string, z: string, q: string)
    ensures a + u + v + w + x + z + q == a + (u + v + w + x + z + q)
    ensures a + u + v + w + x == a + (u + v + w + x)
  {
  }

  /** The case identifier occurs once, at the start, and becomes a placeholder. */
  lemma CaseIdentifierHidden(ws: string, name: string, p1: string)
    requires SuffixLike(ws) && PlainName(name)
    ensures ReplaceAll(("CASE" + ws) + " ," + ("PERSON" + ws) + " ," + name + ws + " ", ("CASE" + ws), p1)
         == p1 + " ," + ("PERSON" + ws) + " ," + name + ws + " "
  {
    var a, b := "CASE" + ws, "PERSON" + ws;
    var y := " ," + b + " ," + name + ws + " ";
    SuffixAndNameChars(ws, name);
    assert a[0] == 'C' && 'C' !in y;
    MissingCharNotContained(y, a, 'C');
    ReplaceLeading(a, y, p1);
    Regroup(a, " ,", b, " ,", name, ws, " ");
    Regroup(p1, " ,", b, " ,", name, ws, " ");
  }

  /** The person identifier occurs once and becomes a placeholder. */
  lemma PersonIdentifierHidden(ws: string, name: string, p1: string, p2: string)
    requires SuffixLike(ws) && PlainName(name) && 'P' !in p1
    ensures ReplaceAll(p1 + " ," + ("PERSON" + ws) + " ," + name + ws + " ", ("PERSON" + ws), p2)
         == p1 + " ," + p2 + " ," + name + ws + " "
  {
    var b := "PERSON" + ws;
    var y := " ," + name + ws + " ";
    SuffixAndNameChars(ws, name);
    assert b[1] == 'E';
    MissingCharNotContained(y, b, 'E');
    ReplaceAllAbsent(y, b, p2);
    assert p1 + " ," + b + " ," + name + ws + " " == (p1 + " ,") + b + y;
    ReplaceAt(p1 + " ,", b, p2, y);
    assert p1 + " ," + p2 + " ," + name + ws + " " == (p1 + " ,") + p2 + y;
  }

  /** The only suffix followed by a space is the one ending the plain name. */
  lemma PlainNameSuffixStripped(ws: string, name: string, p1: string, p2: string)
    requires SuffixLike(ws) && PlainName(name) && 'W' !in p1 && 'W' !in p2
    ensures ReplaceAll(p1 + " ," + p2 + " ," + name + ws + " ", ws + " ", " ")
         == p1 + " ," + p2 + " ," + name + " "
  {
    var x := p1 + " ," + p2 + " ," + name;
    assert p1 + " ," + p2 + " ," + name + ws + " " == x + (ws + " ") + [];
    ReplaceAt(x, ws + " ", " ", []);
  }

  /** The other suffix removals find no 'W' left to start a match at. */
  lemma NoSuffixLeft(t: string, ws: string, p: string, r: string)
    requires SuffixLike(ws) && 'W' !in t
    requires p == " " + ws || p == ws + "_" || p == "_" + ws || p == ws + " "
    ensures ReplaceAll(t, p, r) == t
  {
    assert 'W' in p by {
      if p == " " + ws || p == "_" + ws { assert p[1] == 'W'; } else { assert p[0] == 'W'; }
    }
    MissingCharNotContained(t, p, 'W');
    ReplaceAllAbsent(t, p, r);
  }

  /** Trimming drops the appended space and nothing else. */
  lemma IdentifierTextTrimmed(name: string, p1: string, p2: string)
    requires PlainName(name) && |p1| > 0 && p1[0] > ' '
    ensures Trim(p1 + " ," + p2 + " ," + name + " ") == p1 + " ," + p2 + " ," + name
  {
    TrimPadded(p1 + " ," + p2 + " ," + name);
  }

  /** " ," becomes a tab again. */
  lemma IdentifierTabsRestored(name: string, p1: string, p2: string)
    requires PlainName(name) && ' ' !in p1 && ' ' !in p2
    ensures ReplaceAll(p1 + " ," + p2 + " ," + name, " ,", "\t") == p1 + "\t" + p2 + "\t" + name
  {
    MissingCharNotContained(name, " ,", ' ');
    ReplaceBetween(p1, p2, name, " ,", "\t");
  }

  /** The first placeholder occurs once, at the start, and the case identifier is put back. */
  lemma CaseIdentifierRestored(ws: string, name: string, p1: string, p2: string)
    requires SuffixLike(ws) && PlainName(name) && |p1| > 0 && p1[|p1| - 1] == '1' && '1' !in p2
    ensures ReplaceAll(p1 + "\t" + p2 + "\t" + name, p1, ("CASE" + ws)) == ("CASE" + ws) + "\t" + p2 + "\t" + name
  {
    var y := "\t" + p2 + "\t" + name;
    SuffixAndNameChars(ws, name);
    MissingCharNotContained(y, p1, '1');
    ReplaceLeading(p1, y, "CASE" + ws);
    Regroup(p1, "\t", p2, "\t", name, [], []);
    Regroup("CASE" + ws, "\t", p2, "\t", name, [], []);
  }

  /** The second placeholder occurs once and the person identifier is put back. */
  lemma PersonIdentifierRestored(ws: string, name: string, p2: string)
    requires SuffixLike(ws) && PlainName(name) && |p2| > 0 && p2[0] == 'u'
    ensures ReplaceAll(("CASE" + ws) + "\t" + p2 + "\t" + name, p2, ("PERSON" + ws))
         == ("CASE" + ws) + "\t" + ("PERSON" + ws) + "\t" + name
  {
    var a := "CASE" + ws;
    var y := "\t" + name;
    MissingCharNotContained(y, p2, 'u');
    ReplaceAllAbsent(y, p2, "PERSON" + ws);
    assert a + "\t" + p2 + "\t" + name == (a + "\t") + p2 + y;
    ReplaceAt(a + "\t", p2, "PERSON" + ws, y);
    assert a + "\t" + ("PERSON" + ws) + "\t" + name == (a + "\t") + ("PERSON" + ws) + y;
  }

  /** The characters of the placeholders that the proofs below rely on. */
  lemma PlaceholderChars()
    ensures |PLACEHOLDER1| > 0 && PLACEHOLDER1[0] > ' ' && PLACEHOLDER1[|PLACEHOLDER1| - 1] == '1'
    ensures |PLACEHOLDER2| > 0 && PLACEHOLDER2[0] == 'u'
    ensures ' ' !in PLACEHOLDER1 && ' ' !in PLACEHOLDER2 && '1' !in PLACEHOLDER2
    ensures 'P' !in PLACEHOLDER1 && 'W' !in PLACEHOLDER1 && 'W' !in PLACEHOLDER2
  {
  }

  /** The prepare phase on an identifier pair and one plain name. */
  lemma PrepareIdentifiers(ws: string, name: string)
    requires SuffixLike(ws) && PlainName(name)
    ensures RewriteAll(("CASE" + ws) + "\t" + ("PERSON" + ws) + "\t" + name + ws, Prepare(ws))
         == PLACEHOLDER1 + " ," + PLACEHOLDER2 + " ," + name + ws + " "
  {
    var a, b := "CASE" + ws, "PERSON" + ws;
    var p1, p2 := PLACEHOLDER1, PLACEHOLDER2;
    var t0 := a + "\t" + b + "\t" + name + ws;
    var t2 := a + " ," + b + " ," + name + ws;
    PlaceholderChars();
    var ts := [t0, t0, t2, t2 + " ", p1 + " ," + b + " ," + name + ws + " ", p1 + " ," + p2 + " ," + name + ws + " "];
    var steps := Prepare(ws);
    forall i | 0 <= i < |steps| ensures Apply(ts[i], steps[i]) == ts[i + 1] {
      if i == 0 { IdentifierHeaderUpperCase(ws, name); }
      else if i == 1 { IdentifierHeaderTabs(ws, name); }
      else if i == 3 { CaseIdentifierHidden(ws, name, p1); }
      else if i == 4 { PersonIdentifierHidden(ws, name, p1, p2); }
    }
    RewriteTrace(ts, steps);
  }

  /** The suffix phase: only the suffix at the end of the plain name goes. */
  lemma StripIdentifiers(ws: string, name: string)
    requires SuffixLike(ws) && PlainName(name)
    ensures RewriteAll(PLACEHOLDER1 + " ," + PLACEHOLDER2 + " ," + name + ws + " ", StripSuffix(ws))
         == PLACEHOLDER1 + " ," + PLACEHOLDER2 + " ," + name + " "
  {
    var p1, p2 := PLACEHOLDER1, PLACEHOLDER2;
    var t := p1 + " ," + p2 + " ," + name + " ";
    var ts := [p1 + " ," + p2 + " ," + name + ws + " ", t, t, t, t, t];
    var steps := StripSuffix(ws);
    SuffixAndNameChars(ws, name);
    PlaceholderChars();
    forall i | 0 <= i < |steps| ensures Apply(ts[i], steps[i]) == ts[i + 1] {
      if i == 0 { PlainNameSuffixStripped(ws, name, p1, p2); }
      else { NoSuffixLeft(t, ws, steps[i].pattern, steps[i].replacement); }
    }
    RewriteTrace(ts, steps);
  }

  /** The restore phase: the names come back tab-separated with the identifiers in place. */
  lemma RestoreIdentifiers(ws: string, name: string)
    requires SuffixLike(ws) && PlainName(name)
    ensures RewriteAll(PLACEHOLDER1 + " ," + PLACEHOLDER2 + " ," + name + " ", Restore(ws))
         == ("CASE" + ws) + "\t" + ("PERSON" + ws) + "\t" + name
  {
    var a, b := "CASE" + ws, "PERSON" + ws;
    var p1, p2 := PLACEHOLDER1, PLACEHOLDER2;
    PlaceholderChars();
    var ts := [p1 + " ," + p2 + " ," + name + " ", p1 + " ," + p2 + " ," + name,
      p1 + "\t" + p2 + "\t" + name, a + "\t" + p2 + "\t" + name, a + "\t" + b + "\t" + name];
    var steps := Restore(ws);
    assert Apply(ts[0], steps[0]) == ts[1] by { IdentifierTextTrimmed(name, p1, p2); }
    assert Apply(ts[1], steps[1]) == ts[2] by { IdentifierTabsRestored(name, p1, p2); }
    assert Apply(ts[2], steps[2]) == ts[3] by { CaseIdentifierRestored(ws, name, p1, p2); }
    assert Apply(ts[3], steps[3]) == ts[4] by { PersonIdentifierRestored(ws, name, p2); }
    RewriteTrace(ts, steps);
  }

  /**
   * A header holding the case identifier, the person identifier and one more
   * field, all carrying the wave suffix: the identifiers keep their suffix
   * and the other name loses it (for wave 1, "CASEW1\tPERSONW1\tHPROPW1"
   * becomes CASEW1, PERSONW1, HPROP).
   */
  lemma IdentifiersKeepTheirSuffix(wave: int, name: string)
    requires PlainName(name)
    ensures ParseHeader(("CASE" + WaveSuffix(wave)) + "\t" + ("PERSON" + WaveSuffix(wave)) + "\t" + name + WaveSuffix(wave), wave)
         == ["CASE" + WaveSuffix(wave), "PERSON" + WaveSuffix(wave), name]
  {
    var ws := WaveSuffix(wave);
    var a, b := "CASE" + ws, "PERSON" + ws;
    var t0 := a + "\t" + b + "\t" + name + ws;
    var h := a + "\t" + b + "\t" + name;
    IdentifiersNormalised(wave, name);
    WaveSuffixShape(wave);
    SuffixAndNameChars(ws, name);
    assert h == a + ['\t'] + b + ['\t'] + name;
    SplitThree(a, b, name, '\t');
    assert ParseHeader(t0, wave) == JavaSplit(h, '\t');
  }

  /** The three phases take such a header to the tab-separated identifiers and the plain name. */
  lemma IdentifiersNormalised(wave: int, name: string)
    requires PlainName(name)
    ensures NormalisedText(("CASE" + WaveSuffix(wave)) + "\t" + ("PERSON" + WaveSuffix(wave)) + "\t" + name + WaveSuffix(wave), wave)
         == ("CASE" + WaveSuffix(wave)) + "\t" + ("PERSON" + WaveSuffix(wave)) + "\t" + name
  {
    var ws := WaveSuffix(wave);
    var t0 := ("CASE" + ws) + "\t" + ("PERSON" + ws) + "\t" + name + ws;
    WaveSuffixShape(wave);
    PrepareIdentifiers(ws, name);
    StripIdentifiers(ws, name);
    RestoreIdentifiers(ws, name);
    RewriteAllAppend(t0, Prepare(ws), StripSuffix(ws));
    RewriteAllAppend(t0, Prepare(ws) + StripSuffix(ws), Restore(ws));
  }

  // ---------------------------------------------------------------------
  // The normalised text holds no lower-case letter

  /**
   * The text between the prepare and the restore phases, read as tokens:
   * single characters, and whole placeholders, which no rewrite of those
   * phases cuts into.
   */
  datatype Token = Plain(c: char) | Hole(n: nat)

  /** Placeholder 1 stands for the case identifier, placeholder 2 for the person identifier. */
  function Placeholder(n: nat): string {
    if n == 1 then PLACEHOLDER1 else PLACEHOLDER2
  }

  function TokenText(t: Token): string {
    match t
    case Plain(c) => [c]
    case Hole(n) => Placeholder(n)
  }

  /** The text the tokens spell. */
  function Render(ts: seq<Token>): string
    decreases |ts|
  {
    if ts == [] then [] else TokenText(ts[0]) + Render(ts[1..])
  }

  /** A plain token is not a lower-case letter; a hole is a placeholder. */
  predicate GoodToken(t: Token) {
    match t
    case Plain(c) => !IsLower(c)
    case Hole(n) => n == 1 || n == 2
  }

  /** Good tokens, with holes only for the placeholders numbered in hs. */
  predicate Tokens(ts: seq<Token>, hs: set<nat>) {
    forall t :: t in ts ==> GoodToken(t) && (t.Hole? ==> t.n in hs)
  }

  /** A text spelled by good tokens with holes from hs. */
  ghost predicate Tokenised(s: string, hs: set<nat>) {
    exists ts :: Tokens(ts, hs) && Render(ts) == s
  }

  /** The characters of s as plain tokens. */
  function Plains(s: string): (ts: seq<Token>)
    ensures |ts| == |s| && forall i :: 0 <= i < |s| ==> ts[i] == Plain(s[i])
  {
    seq(|s|, i requires 0 <= i < |s| => Plain(s[i]))
  }

  /** The characters of the placeholders that the token proofs rely on. */
  lemma PlaceholderShape()
    ensures |PLACEHOLDER1| == 13 && |PLACEHOLDER2| == 13
    ensures PLACEHOLDER1[0] == 'u' && PLACEHOLDER2[0] == 'u'
    ensures PLACEHOLDER1[1] == 'n' && PLACEHOLDER2[5] == 'e' && PLACEHOLDER2[1] == 'n' && PLACEHOLDER1[5] == 'e'
    ensures PLACEHOLDER1[12] == '1' && PLACEHOLDER2[12] == '2'
    ensures forall k :: 0 < k < 13 && k != 4 ==> PLACEHOLDER1[k] != 'u' && PLACEHOLDER2[k] != 'u'
    ensures 'C' !in PLACEHOLDER1 && 'P' !in PLACEHOLDER1 && 'W' !in PLACEHOLDER1 && ' ' !in PLACEHOLDER1 && '_' !in PLACEHOLDER1
    ensures 'C' !in PLACEHOLDER2 && 'P' !in PLACEHOLDER2 && 'W' !in PLACEHOLDER2 && ' ' !in PLACEHOLDER2 && '_' !in PLACEHOLDER2
  {
  }

  lemma {:induction false} RenderAppend(a: seq<Token>, b: seq<Token>)
    ensures Render(a + b) == Render(a) + Render(b)
    decreases |a|
  {
    if a == [] {
      assert a + b == b;
    } else {
      assert (a + b)[1..] == a[1..] + b;
      RenderAppend(a[1..], b);
    }
  }

  lemma {:induction false} RenderPlains(s: string)
    ensures Render(Plains(s)) == s
    decreases |s|
  {
    if s != [] {
      assert Plains(s)[1..] == Plains(s[1..]);
      RenderPlains(s[1..]);
      assert s == [s[0]] + s[1..];
    }
  }

  /** Good tokens without holes spell a text without lower-case letters. */
  lemma {:induction false} NoHoleNoLower(ts: seq<Token>)
    requires Tokens(ts, {})
    ensures NoLower(Render(ts))
    decreases |ts|
  {
    if ts != [] {
      assert ts[0] in ts;
      assert forall t :: t in ts[1..] ==> t in ts;
      NoHoleNoLower(ts[1..]);
    }
  }

  /** The tokens start with the characters of p, each a plain token. */
  predicate PlainPrefix(ts: seq<Token>, p: string) {
    |p| <= |ts| && forall i :: 0 <= i < |p| ==> ts[i] == Plain(p[i])
  }

  lemma RenderPlainPrefix(ts: seq<Token>, p: string)
    requires PlainPrefix(ts, p)
    ensures Render(ts) == p + Render(ts[|p|..])
  {
    assert ts[..|p|] == Plains(p);
    assert ts == ts[..|p|] + ts[|p|..];
    RenderAppend(ts[..|p|], ts[|p|..]);
    RenderPlains(p);
  }

  /**
   * A text of good tokens that starts with a pattern free of lower-case
   * letters starts with plain tokens spelling it: a placeholder, which
   * starts with 'u', cannot lie under the match.
   */
  lemma {:induction false} PrefixIsPlain(ts: seq<Token>, p: string, hs: set<nat>)
    requires Tokens(ts, hs) && NoLower(p)
    ensures StartsWith(Render(ts), p) ==> PlainPrefix(ts, p)
    decreases |p|
  {
    var s := Render(ts);
    if |p| > 0 && StartsWith(s, p) && ts != [] {
      PlaceholderShape();
      assert s == TokenText(ts[0]) + Render(ts[1..]);
      assert ts[0] in ts;
      assert s[0] == p[0];
      assert |TokenText(ts[0])| > 0 && s[0] == TokenText(ts[0])[0];
      assert ts[0] == Plain(p[0]);
      assert forall t :: t in ts[1..] ==> t in ts;
      assert Render(ts[1..]) == s[1..];
      assert StartsWith(Render(ts[1..]), p[1..]);
      PrefixIsPlain(ts[1..], p[1..], hs);
    }
  }

  /** A pattern that can neither start inside a placeholder nor cover part of one. */
  predicate Fenced(p: string) {
    |p| > 0 && NoLower(p) && p[0] !in PLACEHOLDER1 && p[0] !in PLACEHOLDER2
  }

  /** replaceAll(p, r) on tokens: each match is a run of plain tokens, replaced by rt. */
  function ReplaceTokens(ts: seq<Token>, p: string, rt: seq<Token>): (r: seq<Token>)
    requires |p| > 0
    ensures forall t :: t in r ==> t in ts || t in rt
    decreases |ts|
  {
    if ts == [] then []
    else if PlainPrefix(ts, p) then rt + ReplaceTokens(ts[|p|..], p, rt)
    else [ts[0]] + ReplaceTokens(ts[1..], p, rt)
  }

  /** A fenced replacement on the text is the replacement on its tokens. */
  lemma {:induction false} ReplaceTokensRender(ts: seq<Token>, p: string, rt: seq<Token>, hs: set<nat>)
    requires Tokens(ts, hs) && Fenced(p)
    ensures Render(ReplaceTokens(ts, p, rt)) == ReplaceAll(Render(ts), p, Render(rt))
    decreases |ts|
  {
    var s := Render(ts);
    if ts != [] {
      assert forall t :: t in ts[1..] ==> t in ts;
      if PlainPrefix(ts, p) {
        assert forall t :: t in ts[|p|..] ==> t in ts;
        RenderPlainPrefix(ts, p);
        ReplaceTokensRender(ts[|p|..], p, rt, hs);
        ReplaceAllMatch(Render(ts[|p|..]), p, Render(rt));
        RenderAppend(rt, ReplaceTokens(ts[|p|..], p, rt));
      } else {
        var y := Render(ts[1..]);
        assert s == TokenText(ts[0]) + y;
        ReplaceTokensRender(ts[1..], p, rt, hs);
        RenderAppend([ts[0]], ReplaceTokens(ts[1..], p, rt));
        assert Render([ts[0]]) == TokenText(ts[0]);
        assert ts[0] in ts;
        if ts[0].Hole? {
          PlaceholderShape();
          ReplaceAllSkip(Placeholder(ts[0].n), y, p, Render(rt));
        } else {
          PrefixIsPlain(ts, p, hs);
          ReplaceAllStep(s, p, Render(rt));
          assert s[1..] == y;
        }
      }
    }
  }

  /** replaceAll(q, r) for placeholder n, on tokens: each of its holes becomes rt. */
  function FillHoles(ts: seq<Token>, n: nat, rt: seq<Token>): (r: seq<Token>)
    ensures forall t :: t in r ==> (t in ts && t != Hole(n)) || t in rt
    decreases |ts|
  {
    if ts == [] then []
    else if ts[0] == Hole(n) then rt + FillHoles(ts[1..], n, rt)
    else [ts[0]] + FillHoles(ts[1..], n, rt)
  }

  /**
   * The other placeholder holds no match of q: its only 'u's start
   * "uniqueString", which differs from q in its last character, and
   * "ueString", which differs from q in its second.
   */
  lemma {:induction false} OtherPlaceholderSkip(o: string, q: string, k: nat, y: string, r: string)
    requires |o| == 13 && |q| == 13 && k <= 13
    requires q[0] == 'u' && q[1] == 'n' && o[5] == 'e' && o[12] != q[12]
    requires forall i :: 0 < i < 13 && i != 4 ==> o[i] != 'u'
    ensures ReplaceAll(o[k..] + y, q, r) == o[k..] + ReplaceAll(y, q, r)
    decreases 13 - k
  {
    if k == 13 {
      assert o[k..] + y == y;
    } else {
      OtherPlaceholderSkip(o, q, k + 1, y, r);
      var s := o[k..] + y;
      assert s[0] == o[k];
      if |s| >= 13 {
        if k == 0 {
          assert s[..13][12] == o[12];
        } else if k == 4 {
          assert s[..13][1] == o[5];
        } else {
          assert s[..13][0] == o[k];
        }
      }
      ReplaceAllStep(s, q, r);
      assert s[1..] == o[k + 1..] + y;
      assert o[k..] == [o[k]] + o[k + 1..];
    }
  }

  /** Filling the holes of placeholder n on the tokens is replacing it in the text. */
  lemma {:induction false} FillHolesRender(ts: seq<Token>, n: nat, rt: seq<Token>, hs: set<nat>)
    requires Tokens(ts, hs) && (n == 1 || n == 2)
    ensures Render(FillHoles(ts, n, rt)) == ReplaceAll(Render(ts), Placeholder(n), Render(rt))
    decreases |ts|
  {
    if ts != [] {
      var q := Placeholder(n);
      var y := Render(ts[1..]);
      assert Render(ts) == TokenText(ts[0]) + y;
      assert forall t :: t in ts[1..] ==> t in ts;
      FillHolesRender(ts[1..], n, rt, hs);
      PlaceholderShape();
      assert ts[0] in ts;
      if ts[0] == Hole(n) {
        ReplaceAllMatch(y, q, Render(rt));
        RenderAppend(rt, FillHoles(ts[1..], n, rt));
      } else {
        RenderAppend([ts[0]], FillHoles(ts[1..], n, rt));
        assert Render([ts[0]]) == TokenText(ts[0]);
        if ts[0].Hole? {
          var o := Placeholder(ts[0].n);
          OtherPlaceholderSkip(o, q, 0, y, Render(rt));
          assert o[0..] == o;
        } else {
          ReplaceAllSkip([ts[0].c], y, q, Render(rt));
        }
      }
    }
  }

  /** trim on tokens: blank plain tokens go from both ends. */
  function TrimLeftTokens(ts: seq<Token>): (r: seq<Token>)
    ensures forall t :: t in r ==> t in ts
    decreases |ts|
  {
    if ts != [] && ts[0].Plain? && ts[0].c <= ' ' then TrimLeftTokens(ts[1..]) else ts
  }

  function TrimRightTokens(ts: seq<Token>): (r: seq<Token>)
    ensures forall t :: t in r ==> t in ts
    decreases |ts|
  {
    if ts != [] && ts[|ts| - 1].Plain? && ts[|ts| - 1].c <= ' ' then TrimRightTokens(ts[..|ts| - 1]) else ts
  }

  /** A placeholder starts and ends above ' ', so trimming the text trims plain tokens only. */
  lemma {:induction false} TrimLeftRender(ts: seq<Token>, hs: set<nat>)
    requires Tokens(ts, hs)
    ensures Render(TrimLeftTokens(ts)) == TrimLeft(Render(ts))
    decreases |ts|
  {
    if ts != [] {
      var s := Render(ts);
      assert s == TokenText(ts[0]) + Render(ts[1..]);
      assert ts[0] in ts;
      PlaceholderShape();
      if ts[0].Plain? && ts[0].c <= ' ' {
        assert forall t :: t in ts[1..] ==> t in ts;
        assert s[1..] == Render(ts[1..]);
        TrimLeftRender(ts[1..], hs);
      } else {
        assert s[0] > ' ';
      }
    }
  }

  lemma {:induction false} TrimRightRender(ts: seq<Token>, hs: set<nat>)
    requires Tokens(ts, hs)
    ensures Render(TrimRightTokens(ts)) == TrimRight(Render(ts))
    decreases |ts|
  {
    if ts != [] {
      var n := |ts| - 1;
      var s := Render(ts);
      assert ts == ts[..n] + [ts[n]];
      RenderAppend(ts[..n], [ts[n]]);
      assert Render([ts[n]]) == TokenText(ts[n]);
      assert ts[n] in ts;
      PlaceholderShape();
      if ts[n].Plain? && ts[n].c <= ' ' {
        assert forall t :: t in ts[..n] ==> t in ts;
        assert s[..|s| - 1] == Render(ts[..n]);
        TrimRightRender(ts[..n], hs);
      } else {
        assert s[|s| - 1] > ' ';
      }
    }
  }

  /** The suffix patterns are fenced, and the texts put back have no lower-case letter. */
  lemma SuffixPatterns(ws: string)
    requires SuffixLike(ws)
    ensures NoLower(ws) && NoLower("CASE" + ws) && NoLower("PERSON" + ws) && NoLower("___" + ws + " ")
    ensures Fenced("CASE" + ws) && Fenced("PERSON" + ws) && Fenced(" ,")
    ensures Fenced(ws + " ") && Fenced(" " + ws) && Fenced(ws + "_") && Fenced("_" + ws)
  {
    PlaceholderShape();
    assert forall i :: 0 <= i < |ws| ==> ws[i] == 'W' || ws[i] == '-' || IsDigit(ws[i]);
  }

  /** A fenced replacement by text without lower-case letters keeps a text tokenised. */
  lemma ReplaceTokenised(s: string, p: string, r: string, hs: set<nat>)
    requires Tokenised(s, hs) && Fenced(p) && NoLower(r)
    ensures Tokenised(ReplaceAll(s, p, r), hs)
  {
    var ts :| Tokens(ts, hs) && Render(ts) == s;
    var rt := Plains(r);
    RenderPlains(r);
    assert Tokens(rt, hs);
    ReplaceTokensRender(ts, p, rt, hs);
    Spelled(ReplaceTokens(ts, p, rt), ReplaceAll(s, p, r), hs);
  }

  /** Tokens drawn from good tokens are good. */
  lemma TokensWithin(ts: seq<Token>, us: seq<Token>, hs: set<nat>)
    requires Tokens(us, hs) && forall t :: t in ts ==> t in us
    ensures Tokens(ts, hs)
  {
  }

  /** Good tokens spelling s show that s is tokenised. */
  lemma Spelled(ts: seq<Token>, s: string, hs: set<nat>)
    requires Tokens(ts, hs) && Render(ts) == s
    ensures Tokenised(s, hs)
  {
  }

  /** Trimming keeps a text tokenised. */
  lemma TrimTokenised(s: string, hs: set<nat>)
    requires Tokenised(s, hs)
    ensures Tokenised(Trim(s), hs)
  {
    var ts :| Tokens(ts, hs) && Render(ts) == s;
    var lt := TrimLeftTokens(ts);
    TrimLeftRender(ts, hs);
    TokensWithin(lt, ts, hs);
    var tt := TrimRightTokens(lt);
    TrimRightRender(lt, hs);
    TokensWithin(tt, lt, hs);
    Spelled(tt, Trim(s), hs);
  }

  /** Filling hole n with plain tokens leaves only the other holes. */
  lemma FilledTokens(ts: seq<Token>, n: nat, rt: seq<Token>, hs: set<nat>)
    requires Tokens(ts, hs) && Tokens(rt, {})
    ensures Tokens(FillHoles(ts, n, rt), hs - {n})
  {
    forall t | t in FillHoles(ts, n, rt) ensures GoodToken(t) && (t.Hole? ==> t.n in hs - {n}) {
      if t !in rt {
        assert t in ts && t != Hole(n);
      }
    }
  }

  /** Putting text without lower-case letters in place of placeholder n removes its holes. */
  lemma FillTokenised(s: string, n: nat, r: string, hs: set<nat>)
    requires Tokenised(s, hs) && (n == 1 || n == 2) && NoLower(r)
    ensures Tokenised(ReplaceAll(s, Placeholder(n), r), hs - {n})
  {
    var ts :| Tokens(ts, hs) && Render(ts) == s;
    var rt := Plains(r);
    RenderPlains(r);
    assert Tokens(rt, {});
    FillHolesRender(ts, n, rt, hs);
    FilledTokens(ts, n, rt, hs);
    Spelled(FillHoles(ts, n, rt), ReplaceAll(s, Placeholder(n), r), hs - {n});
  }

  /** Putting placeholder n in place of a fenced pattern keeps a text tokenised, with hole n. */
  lemma HideTokenised(s: string, p: string, n: nat, hs: set<nat>)
    requires Tokenised(s, hs) && Fenced(p) && (n == 1 || n == 2)
    ensures Tokenised(ReplaceAll(s, p, Placeholder(n)), hs + {n})
  {
    var ts :| Tokens(ts, hs) && Render(ts) == s;
    assert Tokens(ts, hs + {n});
    assert Render([Hole(n)]) == Placeholder(n);
    ReplaceTokensRender(ts, p, [Hole(n)], hs + {n});
    assert Tokens(ReplaceTokens(ts, p, [Hole(n)]), hs + {n});
    Spelled(ReplaceTokens(ts, p, [Hole(n)]), ReplaceAll(s, p, Placeholder(n)), hs + {n});
  }

  /** The prepare phase leaves an upper-case text with placeholders in it. */
  lemma PrepareTokenised(header: string, ws: string)
    requires SuffixLike(ws)
    ensures Tokenised(RewriteAll(header, Prepare(ws)), {1, 2})
  {
    SuffixPatterns(ws);
    var h1 := ToUpper(header);
    var h2 := ReplaceAll(h1, "\t", " ,");
    ReplaceAllKeepsUpper(h1, "\t", " ,");
    var h3 := h2 + " ";
    RenderPlains(h3);
    assert Tokens(Plains(h3), {});
    var h4 := ReplaceAll(h3, "CASE" + ws, Placeholder(1));
    HideTokenised(h3, "CASE" + ws, 1, {});
    assert {} + {1} == {1};
    var h5 := ReplaceAll(h4, "PERSON" + ws, Placeholder(2));
    HideTokenised(h4, "PERSON" + ws, 2, {1});
    assert {1} + {2} == {1, 2};
    PrepareTrace(header, ws);
  }

  /** The prepare phase, as nested rewrites. */
  lemma PrepareTrace(header: string, ws: string)
    ensures RewriteAll(header, Prepare(ws)) ==
      ReplaceAll(ReplaceAll(ReplaceAll(ToUpper(header), "\t", " ,") + " ", "CASE" + ws, Placeholder(1)),
                 "PERSON" + ws, Placeholder(2))
  {
    var h1 := ToUpper(header);
    var h3 := ReplaceAll(h1, "\t", " ,") + " ";
    var h4 := ReplaceAll(h3, "CASE" + ws, Placeholder(1));
    var h5 := ReplaceAll(h4, "PERSON" + ws, Placeholder(2));
    var steps := Prepare(ws);
    assert steps[1..][1..][1..][1..][1..] == [];
    assert RewriteAll(h4, steps[1..][1..][1..][1..]) == h5;
    assert RewriteAll(h3, steps[1..][1..][1..]) == h5;
    assert RewriteAll(ReplaceAll(h1, "\t", " ,"), steps[1..][1..]) == h5;
    assert RewriteAll(h1, steps[1..]) == h5;
  }

  /** The suffix phase replaces plain text only and keeps the placeholders whole. */
  lemma StripTokenised(s: string, ws: string)
    requires SuffixLike(ws) && Tokenised(s, {1, 2})
    ensures Tokenised(RewriteAll(s, StripSuffix(ws)), {1, 2})
  {
    var hs := {1, 2};
    SuffixPatterns(ws);
    var s6 := ReplaceAll(s, ws + " ", " ");
    ReplaceTokenised(s, ws + " ", " ", hs);
    var s7 := ReplaceAll(s6, " " + ws, " ");
    ReplaceTokenised(s6, " " + ws, " ", hs);
    var s8 := ReplaceAll(s7, ws + "_", "_");
    ReplaceTokenised(s7, ws + "_", "_", hs);
    var s9 := ReplaceAll(s8, "_" + ws, "_");
    ReplaceTokenised(s8, "_" + ws, "_", hs);
    var s10 := ReplaceAll(s9, ws + " ", "___" + ws + " ");
    ReplaceTokenised(s9, ws + " ", "___" + ws + " ", hs);
    StripTrace(s, ws);
  }

  /** The suffix phase, as nested replacements. */
  lemma StripTrace(s: string, ws: string)
    requires |ws| > 0
    ensures RewriteAll(s, StripSuffix(ws)) ==
      ReplaceAll(ReplaceAll(ReplaceAll(ReplaceAll(ReplaceAll(s, ws + " ", " "), " " + ws, " "), ws + "_", "_"), "_" + ws, "_"),
                 ws + " ", "___" + ws + " ")
  {
    var s6 := ReplaceAll(s, ws + " ", " ");
    var s7 := ReplaceAll(s6, " " + ws, " ");
    var s8 := ReplaceAll(s7, ws + "_", "_");
    var s9 := ReplaceAll(s8, "_" + ws, "_");
    var s10 := ReplaceAll(s9, ws + " ", "___" + ws + " ");
    var steps := StripSuffix(ws);
    assert steps[1..][1..][1..][1..][1..] == [];
    assert RewriteAll(s9, steps[1..][1..][1..][1..]) == s10;
    assert RewriteAll(s8, steps[1..][1..][1..]) == s10;
    assert RewriteAll(s7, steps[1..][1..]) == s10;
    assert RewriteAll(s6, steps[1..]) == s10;
  }

  /** The restore phase puts back every placeholder, leaving plain text only. */
  lemma RestoreTokenised(s: string, ws: string)
    requires SuffixLike(ws) && Tokenised(s, {1, 2})
    ensures Tokenised(RewriteAll(s, Restore(ws)), {})
  {
    SuffixPatterns(ws);
    var s11 := Trim(s);
    TrimTokenised(s, {1, 2});
    var s12 := ReplaceAll(s11, " ,", "\t");
    ReplaceTokenised(s11, " ,", "\t", {1, 2});
    FillBoth(s12, ws);
    RestoreTrace(s, ws);
  }

  /** Filling both placeholders with the identifiers leaves plain text only. */
  lemma FillBoth(s: string, ws: string)
    requires SuffixLike(ws) && Tokenised(s, {1, 2})
    ensures Tokenised(ReplaceAll(ReplaceAll(s, PLACEHOLDER1, "CASE" + ws), PLACEHOLDER2, "PERSON" + ws), {})
  {
    SuffixPatterns(ws);
    var s1 := ReplaceAll(s, PLACEHOLDER1, "CASE" + ws);
    FillTokenised(s, 1, "CASE" + ws, {1, 2});
    assert {1, 2} - {1} == {2};
    FillTokenised(s1, 2, "PERSON" + ws, {2});
    assert {2} - {2} == {};
  }

  /** The restore phase, as nested rewrites. */
  lemma RestoreTrace(s: string, ws: string)
    ensures RewriteAll(s, Restore(ws)) ==
      ReplaceAll(ReplaceAll(ReplaceAll(Trim(s), " ,", "\t"), PLACEHOLDER1, "CASE" + ws), PLACEHOLDER2, "PERSON" + ws)
  {
    PlaceholderChars();
    RestoreTraceWith(s, PLACEHOLDER1, "CASE" + ws, PLACEHOLDER2, "PERSON" + ws);
  }

  /** Trim, tabs back, then two placeholders filled, for any placeholder text. */
  lemma RestoreTraceWith(s: string, p1: string, r1: string, p2: string, r2: string)
    requires |p1| > 0 && |p2| > 0
    ensures WellFormed([TrimBoth, Replace(" ,", "\t"), Replace(p1, r1), Replace(p2, r2)])
    ensures RewriteAll(s, [TrimBoth, Replace(" ,", "\t"), Replace(p1, r1), Replace(p2, r2)]) ==
      ReplaceAll(ReplaceAll(ReplaceAll(Trim(s), " ,", "\t"), p1, r1), p2, r2)
  {
    var steps := [TrimBoth, Replace(" ,", "\t"), Replace(p1, r1), Replace(p2, r2)];
    assert steps[1..] == [Replace(" ,", "\t"), Replace(p1, r1), Replace(p2, r2)];
    ReplaceTrace(Trim(s), " ,", "\t", p1, r1, p2, r2);
  }

  /** Three replacements in a row, as nested rewrites. */
  lemma ReplaceTrace(s: string, p0: string, r0: string, p1: string, r1: string, p2: string, r2: string)
    requires |p0| > 0 && |p1| > 0 && |p2| > 0
    ensures WellFormed([Replace(p0, r0), Replace(p1, r1), Replace(p2, r2)])
    ensures RewriteAll(s, [Replace(p0, r0), Replace(p1, r1), Replace(p2, r2)]) ==
      ReplaceAll(ReplaceAll(ReplaceAll(s, p0, r0), p1, r1), p2, r2)
  {
    var steps := [Replace(p0, r0), Replace(p1, r1), Replace(p2, r2)];
    var s1 := ReplaceAll(s, p0, r0);
    var s2 := ReplaceAll(s1, p1, r1);
    var s3 := ReplaceAll(s2, p2, r2);
    assert steps[1..][1..][1..] == [];
    assert RewriteAll(s2, steps[1..][1..]) == s3;
    assert RewriteAll(s1, steps[1..]) == s3;
  }

  /**
   * The text parseHeader splits holds no lower-case letter: upper-casing
   * removes them all, and the placeholders, the only lower-case text the
   * rewrites bring in, are all put back.
   */
  lemma NormalisedUpper(header: string, wave: int)
    ensures NoLower(NormalisedText(header, wave))
  {
    var ws := WaveSuffix(wave);
    WaveSuffixShape(wave);
    PrepareTokenised(header, ws);
    var s1 := RewriteAll(header, Prepare(ws));
    StripTokenised(s1, ws);
    var s2 := RewriteAll(s1, StripSuffix(ws));
    RestoreTokenised(s2, ws);
    RewriteAllAppend(header, Prepare(ws), StripSuffix(ws));
    RewriteAllAppend(header, Prepare(ws) + StripSuffix(ws), Restore(ws));
    var ts :| Tokens(ts, {}) && Render(ts) == RewriteAll(s2, Restore(ws));
    NoHoleNoLower(ts);
  }
}
