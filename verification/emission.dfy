/**
 * Code emission (WaASCG_Main.run and its printers). run writes nine Java
 * source files: one record class per wave (groups 0 to 4), the abstract
 * class of the fields of all five waves (group 5), and the abstract classes
 * of the fields shared by waves 1 and 2, 3 to 5, and 4 and 5 (groups 6 to
 * 8). Each file's text is given by ClassText; the printers write it piece
 * by piece to a Writer.
 */
module Emission {
  import opened JavaLang
  import opened TypeInference
  import opened Partition
  import opened Sentinels
  import opened Consolidation

  /**
   * The PrintWriter a file is written to: the lines finished so far, which
   * only grow, and the text printed since the last line separator.
   */
  class Writer {
    var lines: seq<string>
    var pending: string

    constructor ()
      ensures lines == [] && pending == ""
    {
      lines := [];
      pending := "";
    }

    /** PrintWriter.print */
    method Print(s: string)
      modifies this
      ensures lines == old(lines) && pending == old(pending) + s
      ensures old(pending) == "" ==> pending == s
    {
      pending := pending + s;
    }

    /** PrintWriter.println */
    method Println(s: string)
      modifies this
      ensures lines == old(lines) + [old(pending) + s] && pending == ""
      ensures old(pending) == "" ==> lines == old(lines) + [s]
    {
      if pending == "" {
        assert pending + s == s;
      }
      lines := lines + [pending + s];
      pending := "";
    }
  }

  // ---------------------------------------------------------------------
  // Constants of the generated code

  /** The unit of indentation (the field indent). */
  const INDENT: string := "    "

  /** s_WaAS followed by the underscore symbol. */
  const PREPEND: string := "WaAS_"

  const PACKAGE_PREFIX: string := "uk.ac.leeds.ccg.data.waas.data."

  /** this.getClass().getName() */
  const GENERATOR: string := "uk.ac.leeds.ccg.data.waascg.process.WaASCG_Main"

  const RECORD_ID_IMPORT: string := "uk.ac.leeds.ccg.data.waas.data.id.WaAS_RecordID"
  const DATA_RECORD_IMPORT: string := "uk.ac.leeds.ccg.data.Data_Record"

  /** getImports0: the record-ID class. */
  const IMPORTS0: seq<string> := [RECORD_ID_IMPORT]

  /** getImports1: the record-ID class and the root record class. */
  const IMPORTS1: seq<string> := [RECORD_ID_IMPORT, DATA_RECORD_IMPORT]

  /** getIndent(i): i copies of the four-space indent (none for i <= 0). */
  function Indent(i: int): (s: string)
    ensures |s| == 4 * (if i < 0 then 0 else i)
  {
    if i <= 0 then "" else Indent(i - 1) + INDENT
  }


  /** An indent is made of spaces only. */
  lemma {:induction false} IndentIsSpaces(i: int)
    ensures forall k :: 0 <= k < |Indent(i)| ==> Indent(i)[k] == ' '
    decreases i
  {
    if i > 0 {
      IndentIsSpaces(i - 1);
      forall k | 0 <= k < |Indent(i)| ensures Indent(i)[k] == ' ' {
        if k < |Indent(i - 1)| {
          assert Indent(i)[k] == Indent(i - 1)[k];
        }
      }
    }
  }

  // ---------------------------------------------------------------------
  // Per-field rendering

  /** The Java type a code is declared with: the switch of the printers. */
  function JavaType(code: int): string {
    if code == 0 then "String"
    else if code == 1 then "double"
    else if code == 2 then "int"
    else if code == 3 then "short"
    else if code == 4 then "byte"
    else "boolean"
  }

  /** What a generated init<field>(String s) does with its value. */
  datatype Init =
    | AsText                        // field = s
    | Parsed(level: Level)          // field = <parser>(s), or <missing> when s is empty
    | FlagOf(v0: Option<int>)       // byte b = Byte.parseByte(s); field = (b != v0)

  /** The initialiser printFieldInits writes for a code, given the field's low sentinel. */
  function InitOf(code: int, v0: Option<int>): Init {
    if code == 0 then AsText
    else if code == 1 then Parsed(DoubleLevel)
    else if code == 2 then Parsed(IntLevel)
    else if code == 3 then Parsed(ShortLevel)
    else if code == 4 then Parsed(ByteLevel)
    else FlagOf(v0)
  }

  /** The parse call of a numeric initialiser. */
  function ParserName(l: Level): string {
    match l
    case DoubleLevel => "Double.parseDouble"
    case IntLevel => "Integer.parseInt"
    case ShortLevel => "Short.parseShort"
    case _ => "Byte.parseByte"
  }

  /** The value a numeric initialiser stores for an empty value. */
  function MissingName(l: Level): string {
    match l
    case DoubleLevel => "Double.NaN"
    case IntLevel => "Integer.MIN_VALUE"
    case ShortLevel => "Short.MIN_VALUE"
    case _ => "Byte.MIN_VALUE"
  }

  /** printFieldDeclarations, one field. */
  function DeclarationLines(field: string, code: int): seq<string> {
    [ Indent(1) + ("protected " + JavaType(code) + " " + field + ";"),
      "" ]
  }

  /** printFieldGetters, one field. */
  function GetterLines(field: string, code: int): seq<string> {
    [ Indent(1) + ("public " + JavaType(code) + " get" + field + "() {"),
      Indent(2) + "return " + field + ";",
      Indent(1) + "}",
      "" ]
  }

  /** The lines of an initialiser between its emptiness test and its closing braces. */
  function InitBodyLines(field: string, init: Init): seq<string> {
    match init
    case AsText => [Indent(3) + field + " = s;"]
    case Parsed(l) =>
      [ Indent(3) + field + " = " + ParserName(l) + "(s);",
        Indent(2) + "} else {",
        Indent(3) + field + " = " + MissingName(l) + ";" ]
    case FlagOf(v0) =>
      if v0.None? then
        [ Indent(3) + "byte b = Byte.parseByte(s);",
          Indent(3) + field + " = false;" ]
      else
        [ Indent(3) + "byte b = Byte.parseByte(s);",
          Indent(3) + "if (b == " + DecimalText(v0.value) + ") {",
          Indent(4) + field + " = false;",
          Indent(3) + "} else {",
          Indent(4) + field + " = true;",
          Indent(3) + "}" ]
  }

  /** printFieldInits, one field. */
  function InitLines(field: string, code: int, v0: Option<int>): seq<string> {
    [ Indent(1) + ("protected final void init" + field + "(String s) {"),
      Indent(2) + "if (!s.trim().isEmpty()) {" ]
    + InitBodyLines(field, InitOf(code, v0))
    + [ Indent(2) + "}",
        Indent(1) + "}",
        "" ]
  }

  /** The middle of a concatenation is fixed by its ends. */
  lemma MiddleEqual<T>(x: seq<T>, p: seq<T>, q: seq<T>, y: seq<T>)
    requires x + p + y == x + q + y
    ensures p == q
  {
    assert |p| == |q|;
    assert p == (x + p + y)[|x|..|x| + |p|];
    assert q == (x + q + y)[|x|..|x| + |q|];
  }

  /**
   * The printed initialiser tells which initialiser it is: two codes and
   * sentinels that print the same initialiser behave the same.
   */
  lemma InitLinesDetermineInit(field: string, c1: int, v1: Option<int>, c2: int, v2: Option<int>)
    requires InitLines(field, c1, v1) == InitLines(field, c2, v2)
    ensures InitOf(c1, v1) == InitOf(c2, v2)
  {
    var i, j := InitOf(c1, v1), InitOf(c2, v2);
    var opening := [ Indent(1) + ("protected final void init" + field + "(String s) {"),
                     Indent(2) + "if (!s.trim().isEmpty()) {" ];
    var closing := [Indent(2) + "}", Indent(1) + "}", ""];
    MiddleEqual(opening, InitBodyLines(field, i), InitBodyLines(field, j), closing);
    var b := InitBodyLines(field, i);
    if i.Parsed? && j.Parsed? {
      MiddleEqual(Indent(3) + field + " = ", ParserName(i.level), ParserName(j.level), "(s);");
    } else if i.FlagOf? && j.FlagOf? && i.v0.Some? && j.v0.Some? {
      assert b[1] == Indent(3) + "if (b == " + DecimalText(i.v0.value) + ") {";
      MiddleEqual(Indent(3) + "if (b == ", DecimalText(i.v0.value), DecimalText(j.v0.value), ") {");
      DecimalTextInjective(i.v0.value, j.v0.value);
    }
  }

  // ---------------------------------------------------------------------
  // What a generated initialiser does

  /** A value a generated field can hold. */
  datatype Held =
    | Text(text: string)   // a String field
    | Whole(n: int)        // an int, short or byte field
    | Real(text: string)   // a double field: Double.parseDouble of the text (floating point is not modelled)
    | NotANumber           // Double.NaN
    | Truth(b: bool)       // a boolean field

  /** The outcome of calling a generated init<field>(s). */
  datatype Outcome = Keeps | Sets(value: Held) | Throws

  /** The value a numeric initialiser stores for an empty value: the constant MissingName names. */
  function Missing(l: Level): Held {
    match l
    case DoubleLevel => NotANumber
    case IntLevel => Whole(INT_MIN)
    case ShortLevel => Whole(SHORT_MIN)
    case _ => Whole(BYTE_MIN)
  }

  /**
   * What the statements of InitBodyLines do with the value s. An empty
   * value (s.trim().isEmpty()) leaves a String or boolean field as it was
   * and gives a number field its missing-value constant. Otherwise a String
   * field takes s; a number field takes s parsed (the parse throws a
   * NumberFormatException when s does not fit); a boolean field parses s
   * as a byte b and is false when b is the low sentinel, and false
   * whatever b is when there is none.
   */
  function Effect(init: Init, s: string, isDouble: string -> bool): Outcome {
    if IsBlank(s) then
      if init.Parsed? then Sets(Missing(init.level)) else Keeps
    else
      match init
      case AsText => Sets(Text(s))
      case Parsed(l) =>
        if l == DoubleLevel then (if isDouble(s) then Sets(Real(s)) else Throws)
        else if Fits(l, s, isDouble) && IsInt(s) then Sets(Whole(ParseDecimal(s).value))
        else Throws
      case FlagOf(v0) =>
        if !IsByte(s) then Throws
        else Sets(Truth(v0.Some? && ByteValue(s) != v0.value))
  }

  /**
   * The initialiser printed for a column accepts every value the column
   * held: for the level the scan inferred and for any more general code
   * that consolidation across waves or sentinel reconciliation chose.
   */
  lemma InitsAcceptScannedValues(vals: seq<string>, code: int, v0: Option<int>, isDouble: string -> bool)
    requires IntsAreDoubles(isDouble)
    requires 0 <= code <= Code(ScanFrom(Initial, vals, isDouble).level)
    ensures forall k :: 0 <= k < |vals| ==> Effect(InitOf(code, v0), vals[k], isDouble) != Throws
  {
    var l := ScanFrom(Initial, vals, isDouble).level;
    ScanFits(vals, isDouble);
    forall k | 0 <= k < |vals| ensures Effect(InitOf(code, v0), vals[k], isDouble) != Throws {
      if !IsBlank(vals[k]) && 1 <= code <= 4 {
        FitsGeneralises(l, InitOf(code, v0).level, vals[k], isDouble);
        ByteIsShortIsInt(vals[k]);
      }
    }
  }

  /** HashMap.get: the value, or None for null. */
  function Lookup(m: map<string, int>, k: string): Option<int> {
    if k in m then Some(m[k]) else None
  }

  predicate Typed(fs: seq<string>, types: map<string, int>) {
    forall i :: 0 <= i < |fs| ==> fs[i] in types
  }

  function DeclarationsLines(fs: seq<string>, types: map<string, int>): seq<string>
    requires Typed(fs, types)
  {
    if fs == [] then [] else DeclarationLines(fs[0], types[fs[0]]) + DeclarationsLines(fs[1..], types)
  }

  function InitsLines(fs: seq<string>, types: map<string, int>, v0: map<string, int>): seq<string>
    requires Typed(fs, types)
  {
    if fs == [] then [] else InitLines(fs[0], types[fs[0]], Lookup(v0, fs[0])) + InitsLines(fs[1..], types, v0)
  }

  function GettersLines(fs: seq<string>, types: map<string, int>): seq<string>
    requires Typed(fs, types)
  {
    if fs == [] then [] else GetterLines(fs[0], types[fs[0]]) + GettersLines(fs[1..], types)
  }

  /** The first name of a TreeSet. */
  ghost function Least(s: set<string>): (x: string)
    requires s != {}
    ensures x in s
  {
    LeastExists(s);
    var x :| IsLeast(x, s);
    x
  }

  lemma LeastIsLeast(s: set<string>)
    requires s != {}
    ensures IsLeast(Least(s), s)
  {
  }

  /**
   * The names of a TreeSet in its iteration order (ascending by
   * String.compareTo).
   */
  ghost function Ascending(s: set<string>): (xs: seq<string>)
    ensures |xs| == |s| && forall i :: 0 <= i < |xs| ==> xs[i] in s
    decreases |s|
  {
    if s == {} then [] else [Least(s)] + Ascending(s - {Least(s)})
  }

  /** The next name an iterator over the remaining names todo returns. */
  method First(todo: set<string>) returns (x: string)
    requires todo != {}
    ensures x == Least(todo)
  {
    LeastExists(todo);
    x :| IsLeast(x, todo);
    LeastIsLeast(todo);
    LeastUnique(x, Least(todo), todo);
  }

  /** TreeSet iteration visits the names in strictly increasing order. */
  lemma {:induction false} AscendingSorted(s: set<string>)
    ensures forall i, j :: 0 <= i < j < |Ascending(s)| ==> StrLess(Ascending(s)[i], Ascending(s)[j])
    decreases |s|
  {
    if s != {} {
      var x := Least(s);
      LeastIsLeast(s);
      AscendingSorted(s - {x});
      var xs := Ascending(s);
      forall i, j | 0 <= i < j < |xs| ensures StrLess(xs[i], xs[j]) {
        if i == 0 {
          assert xs[j] in s - {x};
        } else {
          assert xs[i] == Ascending(s - {x})[i - 1] && xs[j] == Ascending(s - {x})[j - 1];
        }
      }
    }
  }

  /** TreeSet iteration visits every name of the set. */
  lemma {:induction false} AscendingComplete(s: set<string>)
    ensures forall x :: x in s ==> x in Ascending(s)
    decreases |s|
  {
    if s != {} {
      var x := Least(s);
      AscendingComplete(s - {x});
      assert Ascending(s) == [x] + Ascending(s - {x});
    }
  }

  /** One step of printFieldDeclarations's iteration: the least field, then the rest. */
  lemma DeclarationsStep(todo: set<string>, x: string, types: map<string, int>)
    requires todo != {} && x == Least(todo) && todo <= types.Keys
    ensures DeclarationsLines(Ascending(todo), types)
            == DeclarationLines(x, types[x]) + DeclarationsLines(Ascending(todo - {x}), types)
  {
    assert ([x] + Ascending(todo - {x}))[1..] == Ascending(todo - {x});
  }

  /** One step of printFieldGetters's iteration. */
  lemma GettersStep(todo: set<string>, x: string, types: map<string, int>)
    requires todo != {} && x == Least(todo) && todo <= types.Keys
    ensures GettersLines(Ascending(todo), types)
            == GetterLines(x, types[x]) + GettersLines(Ascending(todo - {x}), types)
  {
    assert ([x] + Ascending(todo - {x}))[1..] == Ascending(todo - {x});
  }

  /** One step of printFieldInits's iteration. */
  lemma InitsStep(todo: set<string>, x: string, types: map<string, int>, v0: map<string, int>)
    requires todo != {} && x == Least(todo) && todo <= types.Keys
    ensures InitsLines(Ascending(todo), types, v0)
            == InitLines(x, types[x], Lookup(v0, x)) + InitsLines(Ascending(todo - {x}), types, v0)
  {
    assert ([x] + Ascending(todo - {x}))[1..] == Ascending(todo - {x});
  }

  lemma AppendAssoc5(a: seq<string>, b: seq<string>, c: seq<string>, d: seq<string>, e: seq<string>, f: seq<string>)
    ensures a + b + c + d + e + f == a + (b + c + d + e + f)
  {
  }

  lemma AppendAssoc4(a: seq<string>, b: seq<string>, c: seq<string>, d: seq<string>)
    ensures a + b + c + d == a + (b + c + d)
  {
  }

  lemma AppendAssoc(a: seq<string>, b: seq<string>, c: seq<string>)
    ensures a + b + c == a + (b + c)
  {
  }

  /** printFieldDeclarationsInitsAndGetters: declarations, then initialisers, then getters. */
  ghost function FieldsLines(fields: set<string>, types: map<string, int>, v0: map<string, int>): seq<string>
    requires fields <= types.Keys
  {
    var fs := Ascending(fields);
    DeclarationsLines(fs, types) + InitsLines(fs, types, v0) + GettersLines(fs, types)
  }

  /**
   * The Byte.MIN_VALUE quirk reaches the generated code: in a boolean
   * column that held -128 before its codes a and b, the generated
   * initialiser compares with the smaller code (v0m after the swap of
   * loadTest), so it reads -128 as true, exactly like the larger code.
   */
  lemma MinByteReadsAsHigh(x: string, y: string, z: string, a: int, b: int, isDouble: string -> bool)
    requires a != b && a != BYTE_MIN && b != BYTE_MIN
    requires IsCode(x, BYTE_MIN) && IsCode(y, a) && IsCode(z, b)
    ensures var c := ScanFrom(Initial, [x, y, z], isDouble);
      var init := InitOf(Code(c.level), OrderedLow(c));
      && init == FlagOf(Some(Min(a, b)))
      && Effect(init, x, isDouble) == Sets(Truth(true))
      && Effect(init, if a < b then z else y, isDouble) == Sets(Truth(true))
      && Effect(init, if a < b then y else z, isDouble) == Sets(Truth(false))
  {
    MinByteSlipsThrough(x, y, z, a, b, isDouble);
  }

  // ---------------------------------------------------------------------
  // Class-level text

  /** writeHeaderPackageAndImports, the import lines. */
  function ImportLines(imports: seq<string>): seq<string> {
    seq(|imports|, k requires 0 <= k < |imports| => "import " + imports[k] + ";")
  }

  /** writeHeaderPackageAndImports */
  function HeaderLines(packageName: string, imports: seq<string>): seq<string> {
    [ "/**",
      " * Source code generated by " + GENERATOR,
      " */",
      "",
      "package " + packageName + ";" ]
    + ImportLines(imports)
  }

  /** The declaration line printClassDeclarationSerialVersionUID prints, piece by piece. */
  function DeclarationLine(className: string, isAbstract: bool, implementations: string,
                           extendedClassName: string): string {
    var s := "public ";
    var s := if isAbstract then s + "abstract " else s;
    var s := s + ("class " + className);
    var s := if extendedClassName != "" then s + (" extends " + extendedClassName) else s;
    var s := if implementations != "" then s + (" implements " + implementations) else s;
    s + " {"
  }

  /** printClassDeclarationSerialVersionUID */
  function ClassDeclarationLines(className: string, isAbstract: bool, implementations: string,
                                 extendedClassName: string): seq<string> {
    ["", DeclarationLine(className, isAbstract, implementations, extendedClassName), ""]
  }

  /** "abstract " is printed exactly for an abstract class. */
  lemma DeclarationAbstract(className: string, isAbstract: bool, implementations: string, extendedClassName: string)
    ensures isAbstract <==> StartsWith(DeclarationLine(className, isAbstract, implementations, extendedClassName),
                                       "public abstract ")
  {
    var line := DeclarationLine(className, isAbstract, implementations, extendedClassName);
    var head := if isAbstract then "public abstract " else "public class ";
    assert line[..|head|] == head;
    if !isAbstract && |line| >= 16 {
      assert line[..16][7] == line[7] == head[7] == 'c';
    }
  }

  /**
   * A class that implements nothing ends its declaration with " extends "
   * and the extended name when there is one, and with its own name
   * otherwise.
   */
  lemma DeclarationExtends(className: string, isAbstract: bool, extendedClassName: string)
    ensures var line := DeclarationLine(className, isAbstract, "", extendedClassName);
      && (extendedClassName != "" ==> EndsWith(line, " extends " + extendedClassName + " {"))
      && (extendedClassName == "" ==> EndsWith(line, "class " + className + " {"))
  {
    var line := DeclarationLine(className, isAbstract, "", extendedClassName);
    var head := if isAbstract then "public abstract " else "public ";
    if extendedClassName != "" {
      var tail := " extends " + extendedClassName + " {";
      assert line == head + ("class " + className) + tail;
      assert line[|line| - |tail|..] == tail;
    } else {
      var tail := "class " + className + " {";
      assert line == head + tail;
      assert line[|line| - |tail|..] == tail;
    }
  }

  /** printGetID */
  function GetIDLines(): seq<string> {
    [ "",
      Indent(1) + "@Override",
      Indent(1) + "public WaAS_RecordID getID() {",
      Indent(2) + "return (WaAS_RecordID) id;",
      Indent(1) + "}" ]
  }

  /** printConstructor(pw, className): the constructor of an abstract class. */
  function AbstractConstructorLines(className: string): seq<string> {
    [ "",
      Indent(1) + className + "(WaAS_RecordID i){",
      Indent(2) + "super(i);",
      Indent(1) + "}" ]
  }

  /** The constructor statement that initialises column j, named field. */
  function InitCall(field: string, j: nat): string {
    Indent(2) + "init" + field + "(s[" + DecimalText(j) + "]);"
  }

  /** The init calls of columns 0 to n - 1: line j hands column j to the j-th name's initialiser. */
  function InitCallLines(header: seq<string>, n: nat): (r: seq<string>)
    requires n <= |header|
  {
    seq(n, j requires 0 <= j < n => InitCall(header[j], j))
  }

  /**
   * printConstructor(pw, className, headers, w): the constructor of a wave
   * class, which splits the line on tabs and initialises every column;
   * then printGetID and the class's closing brace.
   */
  function WaveConstructorLines(className: string, header: seq<string>): seq<string> {
    [ "",
      Indent(1) + "public " + className + "(WaAS_RecordID i, String line) throws Exception {",
      Indent(2) + "super(i);",
      Indent(2) + "s = line.split(\"\\t\");" ]
    + InitCallLines(header, |header|)
    + [Indent(1) + "}"]
    + GetIDLines()
    + ["}"]
  }

  /** Line 4 + j of a wave constructor hands column j to the initialiser of the j-th name. */
  lemma WaveConstructorCalls(className: string, header: seq<string>)
    ensures forall j :: 0 <= j < |header| ==> WaveConstructorLines(className, header)[4 + j] == InitCall(header[j], j)
  {
    var opening := [ "",
      Indent(1) + "public " + className + "(WaAS_RecordID i, String line) throws Exception {",
      Indent(2) + "super(i);",
      Indent(2) + "s = line.split(\"\\t\");" ];
    var calls := InitCallLines(header, |header|);
    var lines := WaveConstructorLines(className, header);
    assert lines == opening + calls + ([Indent(1) + "}"] + GetIDLines() + ["}"]);
    forall j | 0 <= j < |header| ensures lines[4 + j] == InitCall(header[j], j) {
      assert lines[4 + j] == calls[j];
    }
  }

  // ---------------------------------------------------------------------
  // The nine classes

  /** The wave part of class g's name. */
  function ClassStem(g: nat): string
    requires g < 9
  {
    if g < 5 then "W" + DecimalText(g + 1)
    else if g == 5 then "W1W2W3W4W5"
    else if g == 6 then "W1W2"
    else if g == 7 then "W3W4W5"
    else "W4W5"
  }

  /** The name of class g for the upper-cased initial t of the data type. */
  function ClassName(g: nat, t: string): string
    requires g < 9
  {
    PREPEND + ClassStem(g) + t + "Record"
  }

  /** How many classes lie between class g and Data_Record. */
  function Depth(g: nat): nat {
    if g == 5 then 0 else if g == 6 || g == 7 then 1 else if g == 3 || g == 4 then 3 else 2
  }

  /** The class that class g extends, for every class but the root W1W2W3W4W5. */
  function Parent(g: nat): (p: nat)
    requires g < 9 && g != 5
    ensures p < 9 && Depth(p) < Depth(g)
  {
    if g <= 1 then 6
    else if g == 2 then 7
    else if g <= 4 then 8
    else if g <= 7 then 5
    else 7
  }

  /** The name class g's declaration extends. */
  function ExtendedName(g: nat, t: string): string
    requires g < 9
  {
    if g == 5 then "Data_Record" else ClassName(Parent(g), t)
  }

  /**
   * Class g, then the class it extends, and so on up to W1W2W3W4W5: for a
   * wave class, exactly the chain of groups that partitions the wave's
   * fields.
   */
  function Ancestry(g: nat): (c: seq<nat>)
    requires g < 9
    ensures |c| > 0 && c[0] == g && c[|c| - 1] == 5
    ensures forall i :: 0 <= i < |c| ==> c[i] < 9
    decreases Depth(g)
  {
    if g == 5 then [5] else [g] + Ancestry(Parent(g))
  }

  /**
   * Each class of an ancestry is declared to extend the next one, and the
   * last, W1W2W3W4W5, extends Data_Record.
   */
  lemma {:induction false} AncestryWiring(g: nat, t: string)
    requires g < 9
    ensures forall i :: 0 <= i < |Ancestry(g)| - 1 ==> ExtendedName(Ancestry(g)[i], t) == ClassName(Ancestry(g)[i + 1], t)
    ensures ExtendedName(Ancestry(g)[|Ancestry(g)| - 1], t) == "Data_Record"
    decreases Depth(g)
  {
    if g != 5 {
      var c := Ancestry(g);
      AncestryWiring(Parent(g), t);
      forall i | 0 <= i < |c| - 1 ensures ExtendedName(c[i], t) == ClassName(c[i + 1], t) {
        if i > 0 {
          assert c[i] == Ancestry(Parent(g))[i - 1] && c[i + 1] == Ancestry(Parent(g))[i];
        }
      }
    }
  }

  /** The classes a wave class inherits from are the groups of the wave's chain. */
  lemma AncestryIsChain(w: nat)
    requires w < 5
    ensures Ancestry(w) == Chain(w)
  {
    var p := Parent(w);
    assert Ancestry(p)[1..] == Ancestry(Parent(p));
    if w < 3 {
      assert Ancestry(w) == [w, p, 5];
    } else {
      assert Ancestry(w) == [w, 8, 7, 5];
    }
  }


  /**
   * The text of class g: the wave classes (g < 5) declare their own fields
   * and a constructor that reads a line; W1W2W3W4W5 (g == 5) declares the
   * field array s; every class but the wave classes is abstract.
   */
  ghost function ClassLines(g: nat, t: string, packageName: string, header: seq<string>,
                            fields: set<string>, types: map<string, int>, v0m: map<string, int>): seq<string>
    requires g < 9 && fields <= types.Keys
  {
    var name := ClassName(g, t);
    if g < 5 then
      HeaderLines(packageName, IMPORTS0)
      + ClassDeclarationLines(name, false, "", ExtendedName(g, t))
      + FieldsLines(fields, types, v0m)
      + WaveConstructorLines(name, header)
    else if g == 5 then
      HeaderLines(packageName, IMPORTS1)
      + ClassDeclarationLines(name, true, "", ExtendedName(g, t))
      + ["", Indent(1) + "protected String[] s;"]
      + AbstractConstructorLines(name)
      + FieldsLines(fields, types, v0m)
      + ["}"]
    else
      HeaderLines(packageName, IMPORTS0)
      + ClassDeclarationLines(name, true, "", ExtendedName(g, t))
      + AbstractConstructorLines(name)
      + FieldsLines(fields, types, v0m)
      + ["}"]
  }

  /**
   * A wave record inherits each column of its header from exactly one class
   * of its ancestry, and no other field: every init call of its constructor
   * names a field declared once along the way.
   */
  lemma WaveFieldsDeclared(headers: seq<seq<string>>, w: nat)
    requires |headers| == 5 && w < 5
    ensures var groups := Groups(WaveSets(headers)); var c := Ancestry(w);
      && (forall j :: 0 <= j < |headers[w]| ==> exists i :: 0 <= i < |c| && headers[w][j] in groups[c[i]])
      && (forall i, k :: 0 <= i < k < |c| ==> groups[c[i]] * groups[c[k]] == {})
      && (forall i, f :: 0 <= i < |c| && f in groups[c[i]] ==> f in headers[w])
  {
    var ws := WaveSets(headers);
    AncestryIsChain(w);
    ChainPartitionsWave(ws, w);
    forall j | 0 <= j < |headers[w]|
      ensures exists i :: 0 <= i < |Chain(w)| && headers[w][j] in Groups(ws)[Chain(w)[i]]
    {
      assert headers[w][j] in ws[w];
    }
  }

  /** A written Java file: its name and its lines. */
  datatype SourceFile = SourceFile(name: string, lines: seq<string>)

  /** Every name of every header has a type (fieldTypes.get never returns null). */
  predicate HeadersTyped(headers: seq<seq<string>>, types: map<string, int>) {
    forall w, f :: 0 <= w < |headers| && f in headers[w] ==> f in types
  }

  /** Every group holds only names of the headers, so only typed names. */
  lemma GroupsTyped(headers: seq<seq<string>>, types: map<string, int>)
    requires |headers| == 5 && HeadersTyped(headers, types)
    ensures forall g :: 0 <= g < 9 ==> Groups(WaveSets(headers))[g] <= types.Keys
  {
    var ws := WaveSets(headers);
    forall w | 0 <= w < 5 ensures ws[w] <= types.Keys {
      forall f | f in ws[w] ensures f in types {
        assert f in headers[w];
      }
    }
  }

  /** The file of class g in the output of run, given the nine groups. */
  ghost function ClassFile(g: nat, t: string, packageName: string, headers: seq<seq<string>>, groups: seq<set<string>>,
                           types: map<string, int>, v0ms: seq<map<string, int>>, v0m0: map<string, int>): SourceFile
    requires g < 9 && |headers| == 5 && |v0ms| == 5 && |groups| == 9 && groups[g] <= types.Keys
  {
    SourceFile(ClassName(g, t) + ".java",
               ClassLines(g, t, packageName, if g < 5 then headers[g] else [], groups[g], types,
                          if g < 5 then v0ms[g] else v0m0))
  }

  /** The nine files of run, in the order it writes them. */
  ghost function ClassFiles(t: string, packageName: string, headers: seq<seq<string>>, groups: seq<set<string>>,
                            types: map<string, int>, v0ms: seq<map<string, int>>, v0m0: map<string, int>): (fs: seq<SourceFile>)
    requires |headers| == 5 && |v0ms| == 5 && GroupsTypedBy(groups, types)
    ensures |fs| == 9
  {
    seq(9, g requires 0 <= g < 9 => ClassFile(g, t, packageName, headers, groups, types, v0ms, v0m0))
  }

  /** Every group's names have a type. */
  predicate GroupsTypedBy(groups: seq<set<string>>, types: map<string, int>) {
    |groups| == 9 && forall g :: 0 <= g < 9 ==> groups[g] <= types.Keys
  }

  // ---------------------------------------------------------------------
  // The generator

  /** The state of WaASCG_Main that emission uses: the indent and its memo, and the two import lists. */
  class Generator {
    const indent: string
    var indents: map<int, string>
    var imports0: Option<seq<string>>
    var imports1: Option<seq<string>>

    /** Every memoised indent, and every built import list, is the right one. */
    ghost predicate Valid()
      reads this
    {
      && indent == INDENT
      && (forall i :: i in indents ==> indents[i] == Indent(i))
      && (imports0.Some? ==> imports0.value == IMPORTS0)
      && (imports1.Some? ==> imports1.value == IMPORTS1)
    }

    constructor ()
      ensures Valid() && indents == map[] && imports0.None? && imports1.None?
    {
      indent := INDENT;
      indents := map[];
      imports0 := None;
      imports1 := None;
    }

    /** getIndent: built on first use and memoised. */
    method GetIndent(i: int) returns (s: string)
      requires Valid()
      modifies this
      ensures Valid() && s == Indent(i)
      ensures indents == old(indents)[i := s] && imports0 == old(imports0) && imports1 == old(imports1)
    {
      if i !in indents {
        s := "";
        var j := 0;
        while j < i
          invariant 0 <= j <= (if i < 0 then 0 else i)
          invariant s == Indent(j)
        {
          s := s + indent;
          j := j + 1;
        }
        indents := indents[i := s];
        return;
      }
      s := indents[i];
    }

    method GetImports0() returns (r: seq<string>)
      requires Valid()
      modifies this
      ensures Valid() && r == IMPORTS0
      ensures imports0 == Some(IMPORTS0) && indents == old(indents) && imports1 == old(imports1)
    {
      if imports0.None? {
        imports0 := Some([RECORD_ID_IMPORT]);
      }
      r := imports0.value;
    }

    method GetImports1() returns (r: seq<string>)
      requires Valid()
      modifies this
      ensures Valid() && r == IMPORTS1
      ensures imports1 == Some(IMPORTS1) && indents == old(indents)
      ensures imports0 == if old(imports1).None? then Some(IMPORTS0) else old(imports0)
    {
      if imports1.None? {
        var i0 := GetImports0();
        imports1 := Some(i0 + [DATA_RECORD_IMPORT]);
      }
      r := imports1.value;
    }


    /** run, for class g: gets the import list the class needs and writes the class. */
    method WriteClass(g: nat, t: string, packageName: string, headers: seq<seq<string>>, groups: seq<set<string>>,
                      types: map<string, int>, v0ms: seq<map<string, int>>, v0m0: map<string, int>)
      returns (f: SourceFile)
      requires Valid() && g < 9 && |headers| == 5 && |v0ms| == 5 && GroupsTypedBy(groups, types)
      modifies this
      ensures Valid()
      ensures f == ClassFiles(t, packageName, headers, groups, types, v0ms, v0m0)[g]
    {
      ghost var header := if g < 5 then headers[g] else [];
      ghost var v0m := if g < 5 then v0ms[g] else v0m0;
      assert ClassFiles(t, packageName, headers, groups, types, v0ms, v0m0)[g]
          == SourceFile(ClassName(g, t) + ".java", ClassLines(g, t, packageName, header, groups[g], types, v0m));
      if g == 5 {
        var imports := GetImports1();
        f := WriteCommonClass(t, packageName, imports, groups[g], types, v0m0);
      } else {
        var imports := GetImports0();
        if g < 5 {
          f := WriteWaveClass(g, t, packageName, imports, headers, groups[g], types, v0ms[g]);
        } else {
          f := WriteSharedClass(g, t, packageName, imports, groups[g], types, v0m0);
        }
      }
    }

    /** The loop of run over the nine classes. */
    method WriteClasses(t: string, packageName: string, headers: seq<seq<string>>, fields: seq<set<string>>,
                        types: map<string, int>, v0ms: seq<map<string, int>>, v0m0: map<string, int>)
      returns (files: seq<SourceFile>)
      requires Valid() && |headers| == 5 && |v0ms| == 5 && GroupsTypedBy(fields, types)
      modifies this
      ensures Valid() && files == ClassFiles(t, packageName, headers, fields, types, v0ms, v0m0)
    {
      files := [];
      for g := 0 to 9
        invariant Valid() && files == ClassFiles(t, packageName, headers, fields, types, v0ms, v0m0)[..g]
      {
        var f := WriteClass(g, t, packageName, headers, fields, types, v0ms, v0m0);
        files := files + [f];
      }
    }

    /**
     * run(type, types): groups the fields, reconciles the sentinels of the
     * fields of all five waves (which rewrites the type map, returned here
     * as types), then writes the nine classes. The substring that takes the
     * type's initial throws for an empty type (None) after the type map has
     * been rewritten and before any file is written.
     */
    method Run(type_: string, fieldTypes: map<string, int>, headers: seq<seq<string>>,
               v0ms: seq<map<string, int>>, v1ms: seq<map<string, int>>)
      returns (r: Option<seq<SourceFile>>, types: map<string, int>, ghost v0m0: map<string, int>)
      requires Valid()
      requires |headers| == 5 && |v0ms| == 5 && |v1ms| == 5
      requires HeadersTyped(headers, fieldTypes)
      modifies this
      ensures Valid()
      ensures OnlyDemoted(fieldTypes, types)
      ensures var common := Groups(WaveSets(headers))[5];
        CaseExact(common, v0ms) ==>
          types == ReconciledTypes(common, fieldTypes, v0ms, v1ms) && v0m0 == CommonLows(common, fieldTypes, v0ms, v1ms)
      ensures r.None? <==> type_ == ""
      ensures var groups := Groups(WaveSets(headers));
        r.Some? ==>
          GroupsTypedBy(groups, types)
          && r.value == ClassFiles(ToUpper(type_)[..1], PACKAGE_PREFIX + type_, headers, groups, types, v0ms, v0m0)
    {
      var fields := GetFields(headers);
      GroupsTyped(headers, fieldTypes);
      var v0m1;
      v0m1, types := SetCommonBooleanMaps(v0ms, v1ms, fields[5], fieldTypes);
      v0m0 := v0m1;
      assert HeadersTyped(headers, types);
      GroupsTyped(headers, types);
      assert GroupsTypedBy(fields, types);
      var packageName := PACKAGE_PREFIX + type_;
      if type_ == "" {
        return None, types, v0m0;
      }
      var t := ToUpper(type_)[..1];
      var files := WriteClasses(t, packageName, headers, fields, types, v0ms, v0m1);
      r := Some(files);
    }

  }

  // ---------------------------------------------------------------------
  // The printers

  method WriteHeaderPackageAndImports(pw: Writer, packageName: string, imports: seq<string>)
    requires pw.pending == ""
    modifies pw
    ensures pw.pending == "" && pw.lines == old(pw.lines) + HeaderLines(packageName, imports)
  {
    pw.Println("/**");
    pw.Println(" * Source code generated by " + GENERATOR);
    pw.Println(" */");
    pw.Println("");
    pw.Println("package " + packageName + ";");
    ghost var start := pw.lines;
    for k := 0 to |imports|
      invariant pw.pending == "" && pw.lines == start + ImportLines(imports[..k])
    {
      pw.Println("import " + imports[k] + ";");
    }
    assert imports[..|imports|] == imports;
  }

  method PrintClassDeclarationSerialVersionUID(pw: Writer, packageName: string, className: string,
                                               isAbstract: bool, implementations: string,
                                               extendedClassName: string)
    requires pw.pending == ""
    modifies pw
    ensures pw.pending == ""
    ensures pw.lines == old(pw.lines) + ClassDeclarationLines(className, isAbstract, implementations, extendedClassName)
  {
    pw.Println("");
    pw.Print("public ");
    if isAbstract {
      pw.Print("abstract ");
    }
    pw.Print("class " + className);
    if extendedClassName != "" {
      pw.Print(" extends " + extendedClassName);
    }
    if implementations != "" {
      pw.Print(" implements " + implementations);
    }
    pw.Println(" {");
    pw.Println("");
  }

  method PrintGetID(pw: Writer)
    requires pw.pending == ""
    modifies pw
    ensures pw.pending == "" && pw.lines == old(pw.lines) + GetIDLines()
  {
    pw.Println("");
    var i1 := Indent(1);
    pw.Println(i1 + "@Override");
    pw.Println(i1 + "public WaAS_RecordID getID() {");
    var i2 := Indent(2);
    pw.Println(i2 + "return (WaAS_RecordID) id;");
    pw.Println(i1 + "}");
  }

  /** printConstructor(pw, className) */
  method PrintAbstractConstructor(pw: Writer, className: string)
    requires pw.pending == ""
    modifies pw
    ensures pw.pending == "" && pw.lines == old(pw.lines) + AbstractConstructorLines(className)
  {
    pw.Println("");
    var i1 := Indent(1);
    pw.Println(i1 + className + "(WaAS_RecordID i){");
    var i2 := Indent(2);
    pw.Println(i2 + "super(i);");
    pw.Println(i1 + "}");
  }

  /** printConstructor(pw, className, headers, w) */
  method PrintWaveConstructor(pw: Writer, className: string, headers: seq<seq<string>>, w: nat)
    requires pw.pending == "" && w < |headers|
    modifies pw
    ensures pw.pending == "" && pw.lines == old(pw.lines) + WaveConstructorLines(className, headers[w])
  {
    ghost var l0 := pw.lines;
    pw.Println("");
    var i1 := Indent(1);
    pw.Println(i1 + "public " + className + "(WaAS_RecordID i, String line) throws Exception {");
    var i2 := Indent(2);
    pw.Println(i2 + "super(i);");
    pw.Println(i2 + "s = line.split(\"\\t\");");
    ghost var opening := ["", i1 + "public " + className + "(WaAS_RecordID i, String line) throws Exception {",
                          i2 + "super(i);", i2 + "s = line.split(\"\\t\");"];
    assert pw.lines == l0 + opening;
    PrintInitCalls(pw, headers[w]);
    ghost var l1 := pw.lines;
    pw.Println(i1 + "}");
    PrintGetID(pw);
    pw.Println("}");
    assert pw.lines == l1 + [i1 + "}"] + GetIDLines() + ["}"];
    AppendAssoc5(l0, opening, InitCallLines(headers[w], |headers[w]|), [i1 + "}"], GetIDLines(), ["}"]);
  }

  /** The loop of printConstructor(pw, className, headers, w) over the columns. */
  method PrintInitCalls(pw: Writer, header: seq<string>)
    requires pw.pending == ""
    modifies pw
    ensures pw.pending == "" && pw.lines == old(pw.lines) + InitCallLines(header, |header|)
  {
    for j := 0 to |header|
      invariant pw.pending == "" && pw.lines == old(pw.lines) + InitCallLines(header, j)
    {
      pw.Println(Indent(2) + "init" + header[j] + "(s[" + DecimalText(j) + "]);");
    }
  }

  method PrintFieldDeclarationsInitsAndGetters(pw: Writer, fields: set<string>, fieldTypes: map<string, int>,
                                               v0: map<string, int>)
    requires pw.pending == "" && fields <= fieldTypes.Keys
    modifies pw
    ensures pw.pending == "" && pw.lines == old(pw.lines) + FieldsLines(fields, fieldTypes, v0)
  {
    ghost var fs := Ascending(fields);
    PrintFieldDeclarations(pw, fields, fieldTypes);
    PrintFieldInits(pw, fields, fieldTypes, v0);
    PrintFieldGetters(pw, fields, fieldTypes);
    AppendAssoc(old(pw.lines), DeclarationsLines(fs, fieldTypes), InitsLines(fs, fieldTypes, v0));
    AppendAssoc(old(pw.lines), DeclarationsLines(fs, fieldTypes) + InitsLines(fs, fieldTypes, v0), GettersLines(fs, fieldTypes));
  }

  method PrintFieldDeclarations(pw: Writer, fields: set<string>, fieldTypes: map<string, int>)
    requires pw.pending == "" && fields <= fieldTypes.Keys
    modifies pw
    ensures pw.pending == ""
    ensures pw.lines == old(pw.lines) + DeclarationsLines(Ascending(fields), fieldTypes)
  {
    var todo := fields;
    while todo != {}
      invariant todo <= fields && pw.pending == ""
      invariant pw.lines + DeclarationsLines(Ascending(todo), fieldTypes)
                == old(pw.lines) + DeclarationsLines(Ascending(fields), fieldTypes)
      decreases todo
    {
      var field := First(todo);
      DeclarationsStep(todo, field, fieldTypes);
      ghost var before := pw.lines;
      PrintFieldDeclaration(pw, field, fieldTypes[field]);
      AppendAssoc(before, DeclarationLines(field, fieldTypes[field]), DeclarationsLines(Ascending(todo - {field}), fieldTypes));
      todo := todo - {field};
    }
  }

  method PrintFieldGetters(pw: Writer, fields: set<string>, fieldTypes: map<string, int>)
    requires pw.pending == "" && fields <= fieldTypes.Keys
    modifies pw
    ensures pw.pending == ""
    ensures pw.lines == old(pw.lines) + GettersLines(Ascending(fields), fieldTypes)
  {
    var todo := fields;
    while todo != {}
      invariant todo <= fields && pw.pending == ""
      invariant pw.lines + GettersLines(Ascending(todo), fieldTypes)
                == old(pw.lines) + GettersLines(Ascending(fields), fieldTypes)
      decreases todo
    {
      var field := First(todo);
      GettersStep(todo, field, fieldTypes);
      ghost var before := pw.lines;
      PrintFieldGetter(pw, field, fieldTypes[field]);
      AppendAssoc(before, GetterLines(field, fieldTypes[field]), GettersLines(Ascending(todo - {field}), fieldTypes));
      todo := todo - {field};
    }
  }

  method PrintFieldInits(pw: Writer, fields: set<string>, fieldTypes: map<string, int>, v0: map<string, int>)
    requires pw.pending == "" && fields <= fieldTypes.Keys
    modifies pw
    ensures pw.pending == ""
    ensures pw.lines == old(pw.lines) + InitsLines(Ascending(fields), fieldTypes, v0)
  {
    var todo := fields;
    while todo != {}
      invariant todo <= fields && pw.pending == ""
      invariant pw.lines + InitsLines(Ascending(todo), fieldTypes, v0)
                == old(pw.lines) + InitsLines(Ascending(fields), fieldTypes, v0)
      decreases todo
    {
      var field := First(todo);
      InitsStep(todo, field, fieldTypes, v0);
      ghost var before := pw.lines;
      PrintFieldInit(pw, field, fieldTypes[field], v0);
      AppendAssoc(before, InitLines(field, fieldTypes[field], Lookup(v0, field)), InitsLines(Ascending(todo - {field}), fieldTypes, v0));
      todo := todo - {field};
    }
  }

  /** The body of printFieldDeclarations's loop for one field. */
  method PrintFieldDeclaration(pw: Writer, field: string, fieldType: int)
    requires pw.pending == ""
    modifies pw
    ensures pw.pending == "" && pw.lines == old(pw.lines) + DeclarationLines(field, fieldType)
  {
    pw.Print(Indent(1));
    pw.Println("protected " + JavaType(fieldType) + " " + field + ";");
    pw.Println("");
  }

  /** The body of printFieldGetters's loop for one field. */
  method PrintFieldGetter(pw: Writer, field: string, fieldType: int)
    requires pw.pending == ""
    modifies pw
    ensures pw.pending == "" && pw.lines == old(pw.lines) + GetterLines(field, fieldType)
  {
    pw.Print(Indent(1));
    pw.Println("public " + JavaType(fieldType) + " get" + field + "() {");
    pw.Println(Indent(2) + "return " + field + ";");
    pw.Println(Indent(1) + "}");
    pw.Println("");
  }

  /** The body of printFieldInits's loop for one field. */
  method PrintFieldInit(pw: Writer, field: string, fieldType: int, v0: map<string, int>)
    requires pw.pending == ""
    modifies pw
    ensures pw.pending == ""
    ensures pw.lines == old(pw.lines) + InitLines(field, fieldType, Lookup(v0, field))
  {
    ghost var l0 := pw.lines;
    var i1 := Indent(1);
    pw.Print(i1);
    pw.Println("protected final void init" + field + "(String s) {");
    var i2 := Indent(2);
    pw.Println(i2 + "if (!s.trim().isEmpty()) {");
    ghost var opening := [i1 + ("protected final void init" + field + "(String s) {"), i2 + "if (!s.trim().isEmpty()) {"];
    assert pw.lines == l0 + opening;
    PrintInitBody(pw, field, fieldType, v0);
    ghost var l1 := pw.lines;
    pw.Println(i2 + "}");
    pw.Println(i1 + "}");
    pw.Println("");
    assert pw.lines == l1 + [i2 + "}", i1 + "}", ""];
    AppendAssoc4(l0, opening, InitBodyLines(field, InitOf(fieldType, Lookup(v0, field))), [i2 + "}", i1 + "}", ""]);
  }

  /** The switch of printFieldInits: the statements for a non-empty value. */
  method PrintInitBody(pw: Writer, field: string, fieldType: int, v0: map<string, int>)
    requires pw.pending == ""
    modifies pw
    ensures pw.pending == ""
    ensures pw.lines == old(pw.lines) + InitBodyLines(field, InitOf(fieldType, Lookup(v0, field)))
  {
    if fieldType == 0 {
      pw.Println(Indent(3) + field + " = s;");
    } else if 1 <= fieldType <= 4 {
      PrintParsedInit(pw, field, InitOf(fieldType, None).level);
    } else {
      PrintFlagInit(pw, field, Lookup(v0, field));
    }
  }

  /** The statements of a double, int, short or byte initialiser. */
  method PrintParsedInit(pw: Writer, field: string, l: Level)
    requires pw.pending == ""
    modifies pw
    ensures pw.pending == "" && pw.lines == old(pw.lines) + InitBodyLines(field, Parsed(l))
  {
    pw.Println(Indent(3) + field + " = " + ParserName(l) + "(s);");
    pw.Println(Indent(2) + "} else {");
    pw.Println(Indent(3) + field + " = " + MissingName(l) + ";");
  }

  /** The statements of a boolean initialiser: v0 is v0.get(field). */
  method PrintFlagInit(pw: Writer, field: string, v0: Option<int>)
    requires pw.pending == ""
    modifies pw
    ensures pw.pending == "" && pw.lines == old(pw.lines) + InitBodyLines(field, FlagOf(v0))
  {
    var i3 := Indent(3);
    pw.Println(i3 + "byte b = Byte.parseByte(s);");
    if v0.None? {
      pw.Println(i3 + field + " = false;");
    } else {
      var i4 := Indent(4);
      pw.Println(i3 + "if (b == " + DecimalText(v0.value) + ") {");
      pw.Println(i4 + field + " = false;");
      pw.Println(i3 + "} else {");
      pw.Println(i4 + field + " = true;");
      pw.Println(i3 + "}");
    }
  }

  // ---------------------------------------------------------------------
  // The nine files

  /** run, for a wave w < 5: the record class of the wave. */
  method WriteWaveClass(w: nat, t: string, packageName: string, imports: seq<string>, headers: seq<seq<string>>,
                        fields: set<string>, fieldTypes: map<string, int>, v0m: map<string, int>)
    returns (f: SourceFile)
    requires imports == IMPORTS0 && w < 5 && w < |headers| && fields <= fieldTypes.Keys
    ensures f == SourceFile(ClassName(w, t) + ".java", ClassLines(w, t, packageName, headers[w], fields, fieldTypes, v0m))
  {
    var className := ClassName(w, t);
    var pw := new Writer();
    WriteHeaderPackageAndImports(pw, packageName, imports);
    assert pw.lines == HeaderLines(packageName, IMPORTS0);
    PrintClassDeclarationSerialVersionUID(pw, packageName, className, false, "", ExtendedName(w, t));
    PrintFieldDeclarationsInitsAndGetters(pw, fields, fieldTypes, v0m);
    PrintWaveConstructor(pw, className, headers, w);
    f := SourceFile(className + ".java", pw.lines);
  }

  /** run, for w == 5: the abstract class W1W2W3W4W5 of the fields of all five waves. */
  method WriteCommonClass(t: string, packageName: string, imports: seq<string>, fields: set<string>,
                          fieldTypes: map<string, int>, v0m0: map<string, int>)
    returns (f: SourceFile)
    requires imports == IMPORTS1 && fields <= fieldTypes.Keys
    ensures f == SourceFile(ClassName(5, t) + ".java", ClassLines(5, t, packageName, [], fields, fieldTypes, v0m0))
  {
    var className := ClassName(5, t);
    var pw := new Writer();
    WriteHeaderPackageAndImports(pw, packageName, imports);
    assert pw.lines == HeaderLines(packageName, IMPORTS1);
    var implementations := "";
    PrintClassDeclarationSerialVersionUID(pw, packageName, className, true, implementations, "Data_Record");
    ghost var l2 := pw.lines;
    pw.Println("");
    pw.Println(Indent(1) + "protected String[] s;");
    assert pw.lines == l2 + ["", Indent(1) + "protected String[] s;"];
    PrintAbstractConstructor(pw, className);
    PrintFieldDeclarationsInitsAndGetters(pw, fields, fieldTypes, v0m0);
    pw.Println("}");
    f := SourceFile(className + ".java", pw.lines);
  }

  /** run, for w from 6 to 8: the abstract classes W1W2, W3W4W5 and W4W5. */
  method WriteSharedClass(g: nat, t: string, packageName: string, imports: seq<string>, fields: set<string>,
                          fieldTypes: map<string, int>, v0m0: map<string, int>)
    returns (f: SourceFile)
    requires imports == IMPORTS0 && 6 <= g < 9 && fields <= fieldTypes.Keys
    ensures f == SourceFile(ClassName(g, t) + ".java", ClassLines(g, t, packageName, [], fields, fieldTypes, v0m0))
  {
    var className := ClassName(g, t);
    var pw := new Writer();
    WriteHeaderPackageAndImports(pw, packageName, imports);
    assert pw.lines == HeaderLines(packageName, IMPORTS0);
    PrintClassDeclarationSerialVersionUID(pw, packageName, className, true, "", ExtendedName(g, t));
    PrintAbstractConstructor(pw, className);
    PrintFieldDeclarationsInitsAndGetters(pw, fields, fieldTypes, v0m0);
    pw.Println("}");
    f := SourceFile(className + ".java", pw.lines);
  }

  /**
   * run on the result of getFieldTypes: the header names are upper-cased,
   * so the names in common are matched exactly against the recorded names,
   * and run's reconciled codes and sentinels are the exact ones.
   */
  lemma FieldTypesCaseExact(headerLines: seq<string>, data: seq<seq<string>>, isDouble: string -> bool, r: FieldTypes)
    requires |headerLines| == NWAVES && |data| == NWAVES
    requires FieldTypesSpec(headerLines, data, isDouble, r)
    ensures CaseExact(Groups(WaveSets(r.headers))[5], r.v0ms)
  {
    FieldTypesNames(headerLines, data, isDouble, r);
    UpperHeadersCaseExact(r.headers, r.v0ms);
  }
}
