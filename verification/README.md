# WaAS code generator: a verified model of its core

The Wealth and Assets Survey code generator (`WaASCG_Main`) reads the
tab-separated data files of the survey's five waves. For every column it
infers the narrowest Java type that can hold all of the column's values:
String, double, int, short, byte, or a boolean coded by two byte values.
It consolidates those types across the waves and partitions the field names
by the waves that share them. It then reconciles the boolean codes across
waves and prints the Java source of nine record classes. Five are concrete,
one per wave; four are abstract and hold the fields that several waves
share.

This project models that core in Dafny and proves what each step promises.
It follows the source's own structure:

- `java_lang.dfy` (module `JavaLang`): the parts of the Java library the
  core depends on.
  - `String.trim`, ASCII `toUpperCase`, `equalsIgnoreCase`.
  - A literal `replaceAll`, and `split("\t")` with its dropping of trailing
    empty strings.
  - The `parseByte`/`parseShort`/`parseInt` acceptance tests: an optional
    sign, then decimal digits, then a range check.
  - Decimal printing of an integer and the `String.compareTo` order.
- `header.dfy` (module `Header`): `parseHeader`, as the list of its
  fourteen rewrites followed by the split on tabs.
  - The rewrites come in three phases: prepare, strip the suffix, restore.
  - A header of the two identifiers and one more name is followed through
    every rewrite, for every wave.
- `type_inference.dfy` (module `TypeInference`): the per-column state
  machine of `parse` and `doByte`/`doShort`/`doInt`/`doDouble`.
  - The state is a lattice level plus the two sentinel bytes `v0`/`v1`.
  - A scan is specified as a fold (`ScanFrom`) of one observation per value
    (`Observe`).
  - The class `TypeScan` keeps the six boolean flag arrays and the two byte
    arrays of `loadTest`, updated in place.
  - `LoadTest` also reorders the sentinel maps after the scan.
- `consolidation.dfy` (module `Consolidation`): `getFieldTypes`.
  - Flags become codes 0 (String) to 5 (boolean).
  - One map of codes is built per wave, and the waves are merged by `min`.
- `partition.dfy` (module `Partition`): `getFields` (both overloads) and
  `getFieldsInCommon`, which give the nine groups of field names. It also
  covers the TreeSet order in which those groups are iterated.
- `sentinels.dfy` (module `Sentinels`): `setCommonBooleanMaps`. It visits the
  waves in order and demotes a boolean field to byte (code 4) when two waves
  disagree on its codes.
- `emission.dfy` (module `Emission`): `run`, `getIndent`, `getImports0`/`1`
  and every printer.
  - `PrintWriter` is modelled by the class `Writer`: a sequence of finished
    lines that only grows, plus the text of the line being printed.
  - Every printer is proved to append exactly the lines of a specification
    function.
  - `Run` is proved to produce the nine files `ClassFiles` describes.
  - Lemmas about those functions cover several things:
    - the inheritance wiring of the nine classes;
    - the per-type rendering of declarations, getters and initialisers;
    - what a generated initialiser does with a value;
    - the sorted order of the fields.

Every path below is relative to the repository root. All line numbers refer
to `src/main/java/uk/ac/leeds/ccg/data/waascg/process/WaASCG_Main.java`.

The code and its comments disagree in three places, and the model follows
the code:
- The comment on `getFields` (lines 927-946) says that r[0] to r[4] hold
  the fields common to all waves. The code leaves in r[w] the fields
  particular to wave w+1.
- The comment on `getFieldsInCommon` (lines 1032-1043) says that it removes
  the common fields from its arguments. The code only reads them.
- The loop over all waves in `getFieldTypes` prints diagnostics and logs an
  "unrecognised type" error when no flag is set. That branch is unreachable
  (`FlagCodeDecodesEncode`).

## Model

| member | source | states |
|---|---|---|
| JavaLang.TrimEmptyIffBlank | src/main/java/uk/ac/leeds/ccg/data/waascg/process/WaASCG_Main.java:324 | `s.trim().isEmpty()` holds exactly when every character of s is at most ' ' |
| JavaLang.ToUpper | src/main/java/uk/ac/leeds/ccg/data/waascg/process/WaASCG_Main.java:844 | upper-casing keeps the length and leaves no lower-case letter: each of a-z becomes its capital, every other character is unchanged |
| JavaLang.ReplaceAllAbsent | src/main/java/uk/ac/leeds/ccg/data/waascg/process/WaASCG_Main.java:855-867 | replacing a literal pattern that does not occur leaves the text unchanged |
| JavaLang.ReplaceAllSkip | src/main/java/uk/ac/leeds/ccg/data/waascg/process/WaASCG_Main.java:855-867 | a prefix that cannot start a match is copied unchanged and the replacement continues after it |
| JavaLang.ReplaceAllMatch | src/main/java/uk/ac/leeds/ccg/data/waascg/process/WaASCG_Main.java:855-867 | a match at the front is replaced and scanning resumes after it (left to right, non-overlapping) |
| JavaLang.ReplaceAllKeepsUpper | src/main/java/uk/ac/leeds/ccg/data/waascg/process/WaASCG_Main.java:855-867 | replacing with upper-case text keeps an upper-case header free of lower-case letters |
| JavaLang.PiecesHaveNoSeparator | src/main/java/uk/ac/leeds/ccg/data/waascg/process/WaASCG_Main.java:868 | no piece of a split contains the separator |
| JavaLang.PiecesChars | src/main/java/uk/ac/leeds/ccg/data/waascg/process/WaASCG_Main.java:868 | every character of a piece is a character of the split text |
| JavaLang.JoinPieces | src/main/java/uk/ac/leeds/ccg/data/waascg/process/WaASCG_Main.java:868 | joining the pieces with the separator gives back the text (split is lossless before trailing empties are dropped) |
| JavaLang.PiecesCons | src/main/java/uk/ac/leeds/ccg/data/waascg/process/WaASCG_Main.java:868 | a separator-free prefix followed by the separator is the first piece |
| JavaLang.PiecesNoSeparator | src/main/java/uk/ac/leeds/ccg/data/waascg/process/WaASCG_Main.java:868 | text without the separator splits into itself |
| JavaLang.ReplaceAt | src/main/java/uk/ac/leeds/ccg/data/waascg/process/WaASCG_Main.java:855-867 | a match placed after a prefix that cannot start one is replaced and the rest is rewritten on its own |
| JavaLang.ReplaceBetween | src/main/java/uk/ac/leeds/ccg/data/waascg/process/WaASCG_Main.java:855-867 | two matches, each after a part that cannot start one, are both replaced and nothing else changes |
| JavaLang.ReplaceLeading | src/main/java/uk/ac/leeds/ccg/data/waascg/process/WaASCG_Main.java:857-866 | a match at the start of a text holding no other is the only thing replaced |
| JavaLang.TrimPadded | src/main/java/uk/ac/leeds/ccg/data/waascg/process/WaASCG_Main.java:856-864 | appending a space and then trimming removes exactly that space when the text neither starts nor ends blank |
| JavaLang.PiecesJoin | src/main/java/uk/ac/leeds/ccg/data/waascg/process/WaASCG_Main.java:868 | splitting names glued with a separator they do not hold gives back the names, before trailing empties are dropped |
| JavaLang.SplitJoin | src/main/java/uk/ac/leeds/ccg/data/waascg/process/WaASCG_Main.java:868 | `split` inverts joining names that hold no separator when the last name is non-empty |
| JavaLang.SplitThree | src/main/java/uk/ac/leeds/ccg/data/waascg/process/WaASCG_Main.java:868 | three such names joined by the separator split back into exactly those three |
| JavaLang.DropTrailingEmpty | src/main/java/uk/ac/leeds/ccg/data/waascg/process/WaASCG_Main.java:868 | the result is a prefix of the pieces ending in a non-empty piece, and only empty pieces were dropped |
| JavaLang.JavaSplit | src/main/java/uk/ac/leeds/ccg/data/waascg/process/WaASCG_Main.java:265 | `split("\t")`: text without a tab gives itself; otherwise a prefix of the pieces with only trailing empty strings removed |
| JavaLang.ParseDecimal | src/main/java/uk/ac/leeds/ccg/data/waascg/process/WaASCG_Main.java:392-399 | `Integer.parseInt` succeeds only with a 32-bit value |
| JavaLang.ByteValue | src/main/java/uk/ac/leeds/ccg/data/waascg/process/WaASCG_Main.java:341 | `Byte.valueOf` of a byte text lies in [-128, 127] |
| JavaLang.ByteIsShortIsInt | src/main/java/uk/ac/leeds/ccg/data/waascg/process/WaASCG_Main.java:373-399 | every byte text is a short text and every short text is an int text |
| JavaLang.NatTextValue | src/main/java/uk/ac/leeds/ccg/data/waascg/process/WaASCG_Main.java:815 | the digits printed for a natural number read back as that number |
| JavaLang.DecimalRoundTrip | src/main/java/uk/ac/leeds/ccg/data/waascg/process/WaASCG_Main.java:815 | a 32-bit value printed in decimal parses back to itself, so the sentinel printed into an initialiser is the one compared |
| JavaLang.DecimalTextInjective | src/main/java/uk/ac/leeds/ccg/data/waascg/process/WaASCG_Main.java:815 | distinct values print as distinct texts |
| JavaLang.EqualsIgnoreCaseOnUpper | src/main/java/uk/ac/leeds/ccg/data/waascg/process/WaASCG_Main.java:888 | on upper-case names `equalsIgnoreCase` is plain equality |
| JavaLang.StrLessTotal | src/main/java/uk/ac/leeds/ccg/data/waascg/process/WaASCG_Main.java:690 | the TreeSet order `compareTo` is total |
| JavaLang.StrLessTransitive | src/main/java/uk/ac/leeds/ccg/data/waascg/process/WaASCG_Main.java:690 | the TreeSet order is transitive |
| JavaLang.StrLessIrreflexive | src/main/java/uk/ac/leeds/ccg/data/waascg/process/WaASCG_Main.java:690 | the TreeSet order is strict |
| Header.HeaderSteps | src/main/java/uk/ac/leeds/ccg/data/waascg/process/WaASCG_Main.java:839-867 | the fourteen rewrites of parseHeader, the three phases in order; every pattern is non-empty |
| Header.ParseHeader | src/main/java/uk/ac/leeds/ccg/data/waascg/process/WaASCG_Main.java:837-870 | the field names of a header hold no tab and no lower-case letter |
| Header.NormalisedUpper | src/main/java/uk/ac/leeds/ccg/data/waascg/process/WaASCG_Main.java:844-867 | the text split on tabs holds no lower-case letter: upper-casing removes them all, and the placeholders, the only lower-case text the rewrites bring in, are all put back |
| Header.PlaceholderNeverClashes | src/main/java/uk/ac/leeds/ccg/data/waascg/process/WaASCG_Main.java:844-854 | the placeholders "uniqueString1"/"uniqueString2" never occur in the upper-cased header, so the uniqueness test never fires |
| Header.Prepare | src/main/java/uk/ac/leeds/ccg/data/waascg/process/WaASCG_Main.java:844-858 | the first five rewrites: upper-case, tabs to " ,", trailing space, the two identifiers to placeholders; every pattern is non-empty |
| Header.StripSuffix | src/main/java/uk/ac/leeds/ccg/data/waascg/process/WaASCG_Main.java:859-863 | the five suffix rewrites; every pattern is non-empty |
| Header.Restore | src/main/java/uk/ac/leeds/ccg/data/waascg/process/WaASCG_Main.java:864-867 | trim, " ," back to tabs and the identifiers back in place; every pattern is non-empty |
| Header.RewriteTrace | src/main/java/uk/ac/leeds/ccg/data/waascg/process/WaASCG_Main.java:839-867 | a run of texts each obtained from the previous one by the next rewrite ends at the result of all the rewrites |
| Header.RewriteAllAppend | src/main/java/uk/ac/leeds/ccg/data/waascg/process/WaASCG_Main.java:839-867 | applying two lists of rewrites in turn is applying their concatenation |
| Header.WaveSuffixShape | src/main/java/uk/ac/leeds/ccg/data/waascg/process/WaASCG_Main.java:839 | "W" + wave is a W followed by digits, with a minus sign for a negative wave |
| Header.IdentifierHeaderUpperCase | src/main/java/uk/ac/leeds/ccg/data/waascg/process/WaASCG_Main.java:844 | upper-casing a header of the two identifiers and an upper-case name changes nothing |
| Header.IdentifierHeaderTabs | src/main/java/uk/ac/leeds/ccg/data/waascg/process/WaASCG_Main.java:855 | both tabs become " ," and nothing else changes |
| Header.CaseIdentifierHidden | src/main/java/uk/ac/leeds/ccg/data/waascg/process/WaASCG_Main.java:857 | `CASEW<wave>` occurs once and becomes the first placeholder |
| Header.PersonIdentifierHidden | src/main/java/uk/ac/leeds/ccg/data/waascg/process/WaASCG_Main.java:858 | `PERSONW<wave>` occurs once and becomes the second placeholder |
| Header.PlainNameSuffixStripped | src/main/java/uk/ac/leeds/ccg/data/waascg/process/WaASCG_Main.java:859 | only the suffix ending the plain name is followed by a space, and it is removed |
| Header.NoSuffixLeft | src/main/java/uk/ac/leeds/ccg/data/waascg/process/WaASCG_Main.java:860-863 | once no W is left, the remaining suffix rewrites change nothing |
| Header.IdentifierTextTrimmed | src/main/java/uk/ac/leeds/ccg/data/waascg/process/WaASCG_Main.java:864 | trim removes only the appended space |
| Header.IdentifierTabsRestored | src/main/java/uk/ac/leeds/ccg/data/waascg/process/WaASCG_Main.java:865 | " ," becomes a tab again and nothing else changes |
| Header.CaseIdentifierRestored | src/main/java/uk/ac/leeds/ccg/data/waascg/process/WaASCG_Main.java:866 | the first placeholder occurs once and `CASEW<wave>` is put back |
| Header.PersonIdentifierRestored | src/main/java/uk/ac/leeds/ccg/data/waascg/process/WaASCG_Main.java:867 | the second placeholder occurs once and `PERSONW<wave>` is put back |
| Header.PrepareIdentifiers | src/main/java/uk/ac/leeds/ccg/data/waascg/process/WaASCG_Main.java:844-858 | the first phase turns such a header into the two placeholders and the suffixed name, " ,"-separated, with a trailing space |
| Header.StripIdentifiers | src/main/java/uk/ac/leeds/ccg/data/waascg/process/WaASCG_Main.java:859-863 | the suffix phase removes only the plain name's suffix |
| Header.RestoreIdentifiers | src/main/java/uk/ac/leeds/ccg/data/waascg/process/WaASCG_Main.java:864-867 | the last phase gives the tab-separated identifiers and the plain name |
| Header.IdentifiersNormalised | src/main/java/uk/ac/leeds/ccg/data/waascg/process/WaASCG_Main.java:837-867 | for every wave, the fourteen rewrites turn `CASEW<wave>`, `PERSONW<wave>` and a plain name carrying the suffix into the two identifiers with their suffix and the name without it |
| Header.IdentifiersKeepTheirSuffix | src/main/java/uk/ac/leeds/ccg/data/waascg/process/WaASCG_Main.java:837-870 | for every wave, a header of `CASEW<wave>`, `PERSONW<wave>` and a plain name carrying the suffix parses to the two identifiers with their suffix and the name without it |
| TypeInference.Code | src/main/java/uk/ac/leeds/ccg/data/waascg/process/WaASCG_Main.java:152-190 | every level has a code in 0..5 |
| TypeInference.CodeInjective | src/main/java/uk/ac/leeds/ccg/data/waascg/process/WaASCG_Main.java:152-190 | two levels have the same code iff they are the same level |
| TypeInference.Next | src/main/java/uk/ac/leeds/ccg/data/waascg/process/WaASCG_Main.java:373-407 | each do* step moves one level toward String |
| TypeInference.Widen | src/main/java/uk/ac/leeds/ccg/data/waascg/process/WaASCG_Main.java:373-407 | the do* chain never reaches boolean and never narrows |
| TypeInference.WidenIsFirstFit | src/main/java/uk/ac/leeds/ccg/data/waascg/process/WaASCG_Main.java:373-407 | the do* chain stops at the first level from the current one that can hold the value |
| TypeInference.ObserveWidens | src/main/java/uk/ac/leeds/ccg/data/waascg/process/WaASCG_Main.java:320-371 | parse only moves toward String; it never returns to boolean; it leaves boolean only for byte or for short and wider |
| TypeInference.ObserveBlankOrString | src/main/java/uk/ac/leeds/ccg/data/waascg/process/WaASCG_Main.java:324-325 | an empty value changes nothing, and String is terminal |
| TypeInference.NonNumericMakesString | src/main/java/uk/ac/leeds/ccg/data/waascg/process/WaASCG_Main.java:401-407 | a non-empty value that is neither an int nor a double makes the column String, whatever its level |
| TypeInference.ThirdCodeMakesByte | src/main/java/uk/ac/leeds/ccg/data/waascg/process/WaASCG_Main.java:340-348 | a boolean column with both sentinels set becomes byte on a third distinct byte value |
| TypeInference.ObserveConsistent | src/main/java/uk/ac/leeds/ccg/data/waascg/process/WaASCG_Main.java:340-357 | parse keeps the sentinel bytes and the recorded sentinels in step, and v1 is only set after v0 |
| TypeInference.ScanKeepsSentinelsApart | src/main/java/uk/ac/leeds/ccg/data/waascg/process/WaASCG_Main.java:340-357 | after any scan a recorded high sentinel comes with a low one and differs from it |
| TypeInference.ScanWidens | src/main/java/uk/ac/leeds/ccg/data/waascg/process/WaASCG_Main.java:320-407 | a whole scan only widens a column |
| TypeInference.AllBlankStaysInitial | src/main/java/uk/ac/leeds/ccg/data/waascg/process/WaASCG_Main.java:250-260 | a column of empty values stays boolean with no sentinels |
| TypeInference.FitsGeneralises | src/main/java/uk/ac/leeds/ccg/data/waascg/process/WaASCG_Main.java:373-407 | a value that fits a level fits every wider level |
| TypeInference.ObserveFits | src/main/java/uk/ac/leeds/ccg/data/waascg/process/WaASCG_Main.java:320-371 | after parse the column's level can hold the value just seen |
| TypeInference.ScanFits | src/main/java/uk/ac/leeds/ccg/data/waascg/process/WaASCG_Main.java:261-272 | the inferred level can hold every non-empty value of the column |
| TypeInference.TwoCodesStayBoolean | src/main/java/uk/ac/leeds/ccg/data/waascg/process/WaASCG_Main.java:340-357 | a column of blanks and two byte codes (neither -128) stays boolean, with sentinels drawn from the two codes |
| TypeInference.TwoCodesBothRecorded | src/main/java/uk/ac/leeds/ccg/data/waascg/process/WaASCG_Main.java:340-357 | when both codes occur, both are recorded as the low and high sentinels |
| TypeInference.OneCodeRecorded | src/main/java/uk/ac/leeds/ccg/data/waascg/process/WaASCG_Main.java:340-357 | a code that occurs is held in v0 or v1 |
| TypeInference.MinByteRecordedButUnset | src/main/java/uk/ac/leeds/ccg/data/waascg/process/WaASCG_Main.java:354-357 | a first value of -128 is put into v0m, yet v0 still reads as unset |
| TypeInference.MinByteSlipsThrough | src/main/java/uk/ac/leeds/ccg/data/waascg/process/WaASCG_Main.java:342-357 | values -128, a, b give a boolean column with sentinels a and b: -128 is a third value the column never counts |
| TypeInference.Encode | src/main/java/uk/ac/leeds/ccg/data/waascg/process/WaASCG_Main.java:242-260 | exactly one of the six flags is set, the one of the level |
| TypeInference.TypeScan.constructor | src/main/java/uk/ac/leeds/ccg/data/waascg/process/WaASCG_Main.java:241-260 | every column starts boolean with v0 = v1 = -128 and the maps empty |
| TypeInference.TypeScan.DoDouble | src/main/java/uk/ac/leeds/ccg/data/waascg/process/WaASCG_Main.java:401-407 | the column widens to the first level from double that fits; nothing else changes |
| TypeInference.TypeScan.DoInt | src/main/java/uk/ac/leeds/ccg/data/waascg/process/WaASCG_Main.java:392-399 | the column widens to the first level from int that fits; nothing else changes |
| TypeInference.TypeScan.DoShort | src/main/java/uk/ac/leeds/ccg/data/waascg/process/WaASCG_Main.java:383-390 | the column widens to the first level from short that fits; nothing else changes |
| TypeInference.TypeScan.DoByte | src/main/java/uk/ac/leeds/ccg/data/waascg/process/WaASCG_Main.java:373-381 | the column widens to the first level from byte that fits; nothing else changes |
| TypeInference.TypeScan.Parse | src/main/java/uk/ac/leeds/ccg/data/waascg/process/WaASCG_Main.java:320-371 | the column takes one observation step, the maps gain exactly the sentinel it records, the one-hot flag arrays follow |
| TypeInference.TypeScan.ParseBoolean | src/main/java/uk/ac/leeds/ccg/data/waascg/process/WaASCG_Main.java:339-363 | the boolean branch of parse, as one observation step |
| TypeInference.TypeScan.RecordByte | src/main/java/uk/ac/leeds/ccg/data/waascg/process/WaASCG_Main.java:340-357 | a byte value fills v0, then v1, is ignored when equal to one, and otherwise makes the column byte |
| TypeInference.TypeScan.ParseRow | src/main/java/uk/ac/leeds/ccg/data/waascg/process/WaASCG_Main.java:265-269 | every column observes its value of the row, and each map becomes the old one with the row's puts made column by column, so a later column of a repeated name overwrites an earlier one |
| TypeInference.TypeScan.ParseRows | src/main/java/uk/ac/leeds/ccg/data/waascg/process/WaASCG_Main.java:261-272 | the scan fails iff some row is shorter than the header; otherwise each column is the fold of its values, and v0m and v1m are the maps of every put, made row by row and column by column (`SentinelMap`) |
| TypeInference.ColumnsStep | src/main/java/uk/ac/leeds/ccg/data/waascg/process/WaASCG_Main.java:261-272 | one more data line makes every column observe that line's value, so the columns stay the fold of their values |
| TypeInference.ObservedUpTo | src/main/java/uk/ac/leeds/ccg/data/waascg/process/WaASCG_Main.java:265-269 | the columns after parse has seen the first n values of a line: those n observed, the rest untouched |
| TypeInference.RowPutsRecorded | src/main/java/uk/ac/leeds/ccg/data/waascg/process/WaASCG_Main.java:265-269 | with distinct field names, the puts of a line keep v0m and v1m holding exactly each column's recorded sentinels |
| TypeInference.SentinelMapRecorded | src/main/java/uk/ac/leeds/ccg/data/waascg/process/WaASCG_Main.java:261-272 | with distinct field names, the maps of every put hold exactly the sentinels of the scanned columns |
| TypeInference.TypeScan.Finish | src/main/java/uk/ac/leeds/ccg/data/waascg/process/WaASCG_Main.java:277-299 | the flags encode each column's level; the maps are the scanned maps with each pair swapped into order (`Reordered`); with distinct names, v0m holds each column's smaller sentinel and is strictly below v1m |
| TypeInference.TypeScan.OrderSentinels | src/main/java/uk/ac/leeds/ccg/data/waascg/process/WaASCG_Main.java:277-288 | a field with both sentinels has them swapped when v0m's is the larger; nothing else changes |
| TypeInference.ReorderedOrderedIn | src/main/java/uk/ac/leeds/ccg/data/waascg/process/WaASCG_Main.java:277-288 | after the swap of maps holding each column's two distinct sentinels, every field in both maps has v0m strictly below v1m |
| TypeInference.RepeatedNameSharesCode | src/main/java/uk/ac/leeds/ccg/data/waascg/process/WaASCG_Main.java:261-272 | with header "X\tX" and rows p q and q q (byte codes a and b), every put of rows and columns leaves both v0m and v1m at X = b |
| TypeInference.RepeatedNameNotOrdered | src/main/java/uk/ac/leeds/ccg/data/waascg/process/WaASCG_Main.java:277-288 | for that header and those rows loadTest succeeds with v0m[X] = v1m[X] = b: the swap cannot make v0m strictly smaller when a name is repeated |
| TypeInference.ObserveSentinels | src/main/java/uk/ac/leeds/ccg/data/waascg/process/WaASCG_Main.java:350-356 | a step records a low or high sentinel exactly when parse puts into v0m or v1m |
| TypeInference.RecordedObserve | src/main/java/uk/ac/leeds/ccg/data/waascg/process/WaASCG_Main.java:350-356 | the map updates of one step keep the maps equal to the columns' sentinels |
| TypeInference.LoadTest | src/main/java/uk/ac/leeds/ccg/data/waascg/process/WaASCG_Main.java:240-299 | loadTest on a header and data lines: fails iff a line is too short; else the flags of the scanned columns, and the maps of every put swapped into order, strictly ordered when the names are distinct |
| TypeInference.ScanRows | src/main/java/uk/ac/leeds/ccg/data/waascg/process/WaASCG_Main.java:241-299 | the same, once the header is parsed and the lines are split |
| TypeInference.ScanResultMeetsSpec | src/main/java/uk/ac/leeds/ccg/data/waascg/process/WaASCG_Main.java:277-299 | folded columns, their flags and the swapped maps of every put make up the result loadTest promises |
| Consolidation.FlagCode | src/main/java/uk/ac/leeds/ccg/data/waascg/process/WaASCG_Main.java:152-190 | the code is in 0..5, and there is none iff no flag is set |
| Consolidation.FlagCodeDecodesEncode | src/main/java/uk/ac/leeds/ccg/data/waascg/process/WaASCG_Main.java:177-184 | the code of a level's flags is the level's code, so the "unrecognised type" branch is unreachable |
| Consolidation.WaveCodesLastWins | src/main/java/uk/ac/leeds/ccg/data/waascg/process/WaASCG_Main.java:152-177 | the code of a field is that of its last column (put overwrites) |
| Consolidation.WaveCodesKeys | src/main/java/uk/ac/leeds/ccg/data/waascg/process/WaASCG_Main.java:152-190 | a wave's map has only header fields, with codes in 0..5 |
| Consolidation.BuildWaveCodes | src/main/java/uk/ac/leeds/ccg/data/waascg/process/WaASCG_Main.java:152-190 | the loop builds the wave's map of codes |
| Consolidation.Merge | src/main/java/uk/ac/leeds/ccg/data/waascg/process/WaASCG_Main.java:194-209 | merging keeps the union of keys and takes a value from one side that is at most both |
| Consolidation.ConsolidatedKeys | src/main/java/uk/ac/leeds/ccg/data/waascg/process/WaASCG_Main.java:192-210 | the consolidated keys are exactly the union of the waves' fields |
| Consolidation.ConsolidatedIsLowerBound | src/main/java/uk/ac/leeds/ccg/data/waascg/process/WaASCG_Main.java:192-210 | a consolidated code is at most the field's code in every wave that has it |
| Consolidation.ConsolidatedIsAttained | src/main/java/uk/ac/leeds/ccg/data/waascg/process/WaASCG_Main.java:192-210 | a consolidated code is the code of some wave that has the field |
| Consolidation.ConsolidatedIsMinimum | src/main/java/uk/ac/leeds/ccg/data/waascg/process/WaASCG_Main.java:192-210 | each consolidated code is the minimum over the waves holding the field |
| Consolidation.ConsolidatedAgreement | src/main/java/uk/ac/leeds/ccg/data/waascg/process/WaASCG_Main.java:192-210 | a field with the same code in every wave keeps it |
| Consolidation.Consolidate | src/main/java/uk/ac/leeds/ccg/data/waascg/process/WaASCG_Main.java:192-210 | the merge loop computes the consolidation of all waves |
| Consolidation.MergeWave | src/main/java/uk/ac/leeds/ccg/data/waascg/process/WaASCG_Main.java:195-209 | the iterator loop merges one wave into the consolidated map |
| Consolidation.WavesLoadStep | src/main/java/uk/ac/leeds/ccg/data/waascg/process/WaASCG_Main.java:136-137 | one more wave loads when its lines are long enough |
| Consolidation.HeadersParsedStep | src/main/java/uk/ac/leeds/ccg/data/waascg/process/WaASCG_Main.java:140-141 | header w is parseHeader of wave w+1's header line |
| Consolidation.LoadedWave | src/main/java/uk/ac/leeds/ccg/data/waascg/process/WaASCG_Main.java:137-151 | a loaded wave gives its header, its flags and its sentinel maps: the swapped maps of every put, strictly ordered when the names are distinct |
| Consolidation.FieldTypesNames | src/main/java/uk/ac/leeds/ccg/data/waascg/process/WaASCG_Main.java:137-151 | the headers getFieldTypes returns hold no lower-case letter, and every name with a sentinel is a name of its wave's header |
| Consolidation.WavesDoneStep | src/main/java/uk/ac/leeds/ccg/data/waascg/process/WaASCG_Main.java:136-191 | the per-wave loop body keeps its invariant |
| Consolidation.WaveMaps | src/main/java/uk/ac/leeds/ccg/data/waascg/process/WaASCG_Main.java:136-191 | one code map per wave |
| Consolidation.WavesDoneMaps | src/main/java/uk/ac/leeds/ccg/data/waascg/process/WaASCG_Main.java:136-191 | after the loop, the collected maps are the per-wave code maps |
| Consolidation.GetFieldTypes | src/main/java/uk/ac/leeds/ccg/data/waascg/process/WaASCG_Main.java:125-216 | fails iff some wave's data is too short; else the parsed headers, sentinel maps and the consolidation of the waves' codes |
| Partition.FieldSet | src/main/java/uk/ac/leeds/ccg/data/waascg/process/WaASCG_Main.java:1014-1018 | the set holds exactly the names of the header |
| Partition.FieldsInCommon | src/main/java/uk/ac/leeds/ccg/data/waascg/process/WaASCG_Main.java:1044-1060 | exactly the names in s1, s2 and every non-null further set; the arguments are values and stay unchanged |
| Partition.Groups | src/main/java/uk/ac/leeds/ccg/data/waascg/process/WaASCG_Main.java:947-987 | nine groups of field names |
| Partition.GetFields | src/main/java/uk/ac/leeds/ccg/data/waascg/process/WaASCG_Main.java:947-987 | the intersections and in-place removals compute the nine groups |
| Partition.SharedGroups | src/main/java/uk/ac/leeds/ccg/data/waascg/process/WaASCG_Main.java:955-971 | r[5] is the intersection of all five waves, r[6] = w1∩w2 − r[5], r[7] = w3∩w4∩w5 − r[5], r[8] = w4∩w5 − r[5] − r[7] |
| Partition.WaveGroups | src/main/java/uk/ac/leeds/ccg/data/waascg/process/WaASCG_Main.java:974-985 | the removals leave each wave with the fields its class alone declares |
| Partition.Chain | src/main/java/uk/ac/leeds/ccg/data/waascg/process/WaASCG_Main.java:446-465 | each wave's chain of groups names groups 0..8 |
| Partition.ChainPartitionsWave | src/main/java/uk/ac/leeds/ccg/data/waascg/process/WaASCG_Main.java:947-987 | along each wave's chain the groups are pairwise disjoint and together hold exactly the wave's fields |
| Partition.SharedPairsApart | src/main/java/uk/ac/leeds/ccg/data/waascg/process/WaASCG_Main.java:958-967 | r[6] and r[7] share no field |
| Partition.GroupsOverlap | src/main/java/uk/ac/leeds/ccg/data/waascg/process/WaASCG_Main.java:958-973 | a field of waves 1, 2, 4, 5 but not 3 lands in both r[6] and r[8]: the groups are not disjoint overall |
| Partition.LeastExists | src/main/java/uk/ac/leeds/ccg/data/waascg/process/WaASCG_Main.java:690 | every non-empty TreeSet has a first element |
| Partition.LeastUnique | src/main/java/uk/ac/leeds/ccg/data/waascg/process/WaASCG_Main.java:690 | the first element is unique |
| Sentinels.Records | src/main/java/uk/ac/leeds/ccg/data/waascg/process/WaASCG_Main.java:882-888 | the waves that recorded a low sentinel for the field |
| Sentinels.RecordsInOrder | src/main/java/uk/ac/leeds/ccg/data/waascg/process/WaASCG_Main.java:882 | those waves in increasing order, and all of them |
| Sentinels.ReconciledSentinels | src/main/java/uk/ac/leeds/ccg/data/waascg/process/WaASCG_Main.java:901-918 | the low is the first recording wave's low; the high is the second recording wave's high (missing = -128) |
| Sentinels.ReconciledDemotion | src/main/java/uk/ac/leeds/ccg/data/waascg/process/WaASCG_Main.java:901-918 | the field is demoted iff a later wave's low differs from the first, or a later wave's high from the second's |
| Sentinels.PrefixDiffers | src/main/java/uk/ac/leeds/ccg/data/waascg/process/WaASCG_Main.java:906-916 | one more recording wave adds exactly its own disagreement |
| Sentinels.FirstRecordedLow | src/main/java/uk/ac/leeds/ccg/data/waascg/process/WaASCG_Main.java:901-905 | the returned low exists iff a wave recorded one, and is that of the first such wave |
| Sentinels.SetCommonBooleanMaps | src/main/java/uk/ac/leeds/ccg/data/waascg/process/WaASCG_Main.java:872-925 | codes change only 5 → 4; with exact-case names, the codes and returned map are the reconciliation of every common boolean field |
| Sentinels.ProgressStep | src/main/java/uk/ac/leeds/ccg/data/waascg/process/WaASCG_Main.java:878-923 | reconciling one boolean field keeps the loop invariant |
| Sentinels.ProgressSkip | src/main/java/uk/ac/leeds/ccg/data/waascg/process/WaASCG_Main.java:881 | a field whose code is not 5 is left alone |
| Sentinels.ProgressDone | src/main/java/uk/ac/leeds/ccg/data/waascg/process/WaASCG_Main.java:878-925 | once every common field is visited the codes and lows are the reconciled ones |
| Sentinels.ReconcileField | src/main/java/uk/ac/leeds/ccg/data/waascg/process/WaASCG_Main.java:880-922 | one field visited over all waves ends in its reconciled state, and other fields are untouched |
| Sentinels.ReconcileWave | src/main/java/uk/ac/leeds/ccg/data/waascg/process/WaASCG_Main.java:882-920 | one wave takes the field one reconciliation step |
| Sentinels.RecordWave | src/main/java/uk/ac/leeds/ccg/data/waascg/process/WaASCG_Main.java:889-918 | one matching key: its first low is kept, a differing low or high demotes to 4, nothing else changes |
| Sentinels.OnlyDemotedTransitive | src/main/java/uk/ac/leeds/ccg/data/waascg/process/WaASCG_Main.java:908-915 | demotions compose: successive updates only ever rewrite codes to 4 |
| Sentinels.UpperHeadersCaseExact | src/main/java/uk/ac/leeds/ccg/data/waascg/process/WaASCG_Main.java:882-888 | with upper-case headers whose names hold every recorded name, `equalsIgnoreCase` matches a common name only to itself (`CaseExact`) |
| Emission.Writer.constructor | src/main/java/uk/ac/leeds/ccg/data/waascg/process/WaASCG_Main.java:443 | a fresh PrintWriter holds nothing |
| Emission.Writer.Print | src/main/java/uk/ac/leeds/ccg/data/waascg/process/WaASCG_Main.java:643 | print extends the current line; no line is finished |
| Emission.Writer.Println | src/main/java/uk/ac/leeds/ccg/data/waascg/process/WaASCG_Main.java:539 | println finishes the current line with its text; earlier lines never change |
| Emission.Indent | src/main/java/uk/ac/leeds/ccg/data/waascg/process/WaASCG_Main.java:546-556 | getIndent(i) has 4·i characters (none for i ≤ 0) |
| Emission.IndentIsSpaces | src/main/java/uk/ac/leeds/ccg/data/waascg/process/WaASCG_Main.java:546-556 | and they are all spaces: i copies of four spaces |
| Emission.InitLinesDetermineInit | src/main/java/uk/ac/leeds/ccg/data/waascg/process/WaASCG_Main.java:767-828 | two initialisers print the same text only if they are the same initialiser (type and sentinel) |
| Emission.InitsAcceptScannedValues | src/main/java/uk/ac/leeds/ccg/data/waascg/process/WaASCG_Main.java:767-828 | the initialiser of the inferred type (or any wider one) never throws on a value the type was inferred from |
| Emission.MinByteReadsAsHigh | src/main/java/uk/ac/leeds/ccg/data/waascg/process/WaASCG_Main.java:808-820 | for values -128, a, b the generated boolean compares with min(a, b), the v0m left by the swap: it reads -128 and max(a, b) as true and only min(a, b) as false |
| Emission.Least | src/main/java/uk/ac/leeds/ccg/data/waascg/process/WaASCG_Main.java:690-692 | the first element iterated is in the set |
| Emission.LeastIsLeast | src/main/java/uk/ac/leeds/ccg/data/waascg/process/WaASCG_Main.java:690-692 | it precedes every other element |
| Emission.Ascending | src/main/java/uk/ac/leeds/ccg/data/waascg/process/WaASCG_Main.java:690-692 | the iteration yields one element per field of the set |
| Emission.First | src/main/java/uk/ac/leeds/ccg/data/waascg/process/WaASCG_Main.java:690-692 | `ite.next()` picks the first remaining field |
| Emission.AscendingSorted | src/main/java/uk/ac/leeds/ccg/data/waascg/process/WaASCG_Main.java:690-692 | fields are emitted in strictly increasing order |
| Emission.AscendingComplete | src/main/java/uk/ac/leeds/ccg/data/waascg/process/WaASCG_Main.java:690-692 | every field of the set is emitted |
| Emission.DeclarationsStep | src/main/java/uk/ac/leeds/ccg/data/waascg/process/WaASCG_Main.java:690-716 | one loop step emits the first field's declaration, then the rest |
| Emission.GettersStep | src/main/java/uk/ac/leeds/ccg/data/waascg/process/WaASCG_Main.java:728-756 | one loop step emits the first field's getter, then the rest |
| Emission.InitsStep | src/main/java/uk/ac/leeds/ccg/data/waascg/process/WaASCG_Main.java:769-826 | one loop step emits the first field's initialiser, then the rest |
| Emission.DeclarationAbstract | src/main/java/uk/ac/leeds/ccg/data/waascg/process/WaASCG_Main.java:643-646 | the declaration starts "public abstract " iff isAbstract |
| Emission.DeclarationExtends | src/main/java/uk/ac/leeds/ccg/data/waascg/process/WaASCG_Main.java:647-654 | it ends " extends X {" when X is non-empty, and "class C {" when X is empty |
| Emission.WaveConstructorCalls | src/main/java/uk/ac/leeds/ccg/data/waascg/process/WaASCG_Main.java:582-584 | the wave constructor calls init<header[j]>(s[j]) for every column j, in order |
| Emission.Parent | src/main/java/uk/ac/leeds/ccg/data/waascg/process/WaASCG_Main.java:446-531 | every class but W1W2W3W4W5 extends a class nearer the root |
| Emission.Ancestry | src/main/java/uk/ac/leeds/ccg/data/waascg/process/WaASCG_Main.java:436-531 | the superclass chain starts at the class and ends at W1W2W3W4W5 |
| Emission.AncestryWiring | src/main/java/uk/ac/leeds/ccg/data/waascg/process/WaASCG_Main.java:436-531 | each class extends the next class of its chain by name, and W1W2W3W4W5 extends Data_Record |
| Emission.AncestryIsChain | src/main/java/uk/ac/leeds/ccg/data/waascg/process/WaASCG_Main.java:446-465 | waves 1, 2 extend W1W2; wave 3 W3W4W5; waves 4, 5 W4W5 → W3W4W5 → W1W2W3W4W5 |
| Emission.WaveFieldsDeclared | src/main/java/uk/ac/leeds/ccg/data/waascg/process/WaASCG_Main.java:469-529 | along a wave record's superclasses each header field is declared, exactly once, and no other field |
| Emission.GroupsTyped | src/main/java/uk/ac/leeds/ccg/data/waascg/process/WaASCG_Main.java:693 | every field of every group has a code, so `fieldTypes.get(field)` never returns null |
| Emission.ClassFiles | src/main/java/uk/ac/leeds/ccg/data/waascg/process/WaASCG_Main.java:436-534 | the nine generated files |
| Emission.Generator.constructor | src/main/java/uk/ac/leeds/ccg/data/waascg/process/WaASCG_Main.java:80-84 | the indent cache and the import lists start empty |
| Emission.Generator.GetIndent | src/main/java/uk/ac/leeds/ccg/data/waascg/process/WaASCG_Main.java:546-556 | the memoised indent is i copies of four spaces, and the cache stays consistent |
| Emission.Generator.GetImports0 | src/main/java/uk/ac/leeds/ccg/data/waascg/process/WaASCG_Main.java:592-598 | the list is [WaAS_RecordID], created once |
| Emission.Generator.GetImports1 | src/main/java/uk/ac/leeds/ccg/data/waascg/process/WaASCG_Main.java:602-609 | the list is [WaAS_RecordID, Data_Record], created once |
| Emission.Generator.WriteClass | src/main/java/uk/ac/leeds/ccg/data/waascg/process/WaASCG_Main.java:437-532 | iteration w writes the w-th of the nine files |
| Emission.Generator.WriteClasses | src/main/java/uk/ac/leeds/ccg/data/waascg/process/WaASCG_Main.java:436-534 | the loop writes the nine files in order |
| Emission.Generator.Run | src/main/java/uk/ac/leeds/ccg/data/waascg/process/WaASCG_Main.java:416-536 | an empty type fails; else the nine files from the groups and the reconciled types, which only demote 5 to 4 |
| Emission.FieldTypesCaseExact | src/main/java/uk/ac/leeds/ccg/data/waascg/process/WaASCG_Main.java:416-423 | on what getFieldTypes returns, the `CaseExact` condition of `Run` and `SetCommonBooleanMaps` holds, so their exact codes and sentinels apply |
| Emission.WriteHeaderPackageAndImports | src/main/java/uk/ac/leeds/ccg/data/waascg/process/WaASCG_Main.java:617-628 | appends the generator comment, the package line and one import line per import |
| Emission.PrintClassDeclarationSerialVersionUID | src/main/java/uk/ac/leeds/ccg/data/waascg/process/WaASCG_Main.java:639-664 | appends a blank line, the class declaration and a blank line |
| Emission.PrintGetID | src/main/java/uk/ac/leeds/ccg/data/waascg/process/WaASCG_Main.java:538-544 | appends the getID override |
| Emission.PrintAbstractConstructor | src/main/java/uk/ac/leeds/ccg/data/waascg/process/WaASCG_Main.java:563-568 | appends the constructor taking a WaAS_RecordID |
| Emission.PrintWaveConstructor | src/main/java/uk/ac/leeds/ccg/data/waascg/process/WaASCG_Main.java:577-588 | appends the line constructor, getID and the closing brace |
| Emission.PrintInitCalls | src/main/java/uk/ac/leeds/ccg/data/waascg/process/WaASCG_Main.java:582-584 | appends one init call per header column |
| Emission.PrintFieldDeclarationsInitsAndGetters | src/main/java/uk/ac/leeds/ccg/data/waascg/process/WaASCG_Main.java:672-681 | appends the declarations, then the initialisers, then the getters, each in field order |
| Emission.PrintFieldDeclarations | src/main/java/uk/ac/leeds/ccg/data/waascg/process/WaASCG_Main.java:688-718 | appends one declaration per field, in sorted order |
| Emission.PrintFieldGetters | src/main/java/uk/ac/leeds/ccg/data/waascg/process/WaASCG_Main.java:726-758 | appends one getter per field, in sorted order |
| Emission.PrintFieldInits | src/main/java/uk/ac/leeds/ccg/data/waascg/process/WaASCG_Main.java:767-828 | appends one initialiser per field, in sorted order |
| Emission.PrintFieldDeclaration | src/main/java/uk/ac/leeds/ccg/data/waascg/process/WaASCG_Main.java:692-715 | appends "protected <type> <field>;" with code 0–4 as String/double/int/short/byte, else boolean |
| Emission.PrintFieldGetter | src/main/java/uk/ac/leeds/ccg/data/waascg/process/WaASCG_Main.java:730-755 | appends the getter returning the field with its type |
| Emission.PrintFieldInit | src/main/java/uk/ac/leeds/ccg/data/waascg/process/WaASCG_Main.java:770-825 | appends the initialiser of the field's type and sentinel |
| Emission.PrintInitBody | src/main/java/uk/ac/leeds/ccg/data/waascg/process/WaASCG_Main.java:774-822 | appends the statements of the switch case of the code |
| Emission.PrintParsedInit | src/main/java/uk/ac/leeds/ccg/data/waascg/process/WaASCG_Main.java:780-807 | appends the parse call and the missing-value constant of a numeric type |
| Emission.PrintFlagInit | src/main/java/uk/ac/leeds/ccg/data/waascg/process/WaASCG_Main.java:808-821 | appends the boolean initialiser: false iff b is the sentinel, always false without one |
| Emission.WriteWaveClass | src/main/java/uk/ac/leeds/ccg/data/waascg/process/WaASCG_Main.java:437-473 | writes the file of a wave record class |
| Emission.WriteCommonClass | src/main/java/uk/ac/leeds/ccg/data/waascg/process/WaASCG_Main.java:477-492 | writes the file of W1W2W3W4W5, which extends Data_Record |
| Emission.WriteSharedClass | src/main/java/uk/ac/leeds/ccg/data/waascg/process/WaASCG_Main.java:493-531 | writes the file of W1W2, W3W4W5 or W4W5 |

## Left out

- File input and output: reading the header line and data lines (lines 235-272), `Files.createDirectories` (lines 131 and 430), path building and the `PrintWriter` plumbing. A wave is given as a header string and a sequence of data lines; a generated file is a name and its lines.
- `main` (lines 86-111), the `System.out.println` diagnostics and the `Logger` calls.
- `Math_Double.isDouble` is a foreign floating-point parser. It is the function parameter `isDouble`, about which only `IntsAreDoubles` is assumed where a lemma needs it.
- `Math_Byte.isByte`, `Math_Short.isShort` and `Math_Integer.isInt` are modelled as the acceptance of `Byte.parseByte`, `Short.parseShort` and `Integer.parseInt`: an ASCII sign and ASCII digits within range.
- `toUpperCase` and `equalsIgnoreCase` are modelled for ASCII letters only.
- JavaLang.StrLess: `String.compareTo` compares UTF-16 code units, while the model compares Dafny characters, which are Unicode scalar values. The two orders agree on names made of characters below U+10000, such as the ASCII names of the survey's headers. For names with supplementary characters the modelled TreeSet order can differ from Java's.
- `String.replaceAll` is modelled as a literal replacement. Every pattern the code uses is free of regular-expression metacharacters.
- Line separators: `println` finishes a line, and files are sequences of lines.
- Floating point: a double initialiser's stored value is kept as the text it parses (`Real`).
- The class-name prefix comes from `WaASCG_Strings` and is taken to be "WaAS_". `WaASCG_Strings` is not part of this model.
- The type name given to `run` comes from `WaASCG_Strings.s_person`. In the model it is a parameter.
- `getFieldsList` (lines 996-1030): unused.
- The files under `io/`, and the environment, object and strings classes: path wiring and constants only.
- Header.IdentifiersKeepTheirSuffix: proved only for a third name of upper-case letters other than C, E and W (such as HPROP), so that no rewrite can match inside it. Names that end in CASE or PERSON, or that hold the suffix elsewhere, are not covered.
- Header.ParseHeader: its contract states that the names hold no tab and no lower-case letter. What the five suffix rewrites (lines 859-863) do to a name is stated only for the header of IdentifiersKeepTheirSuffix, not for every header.
- TypeInference.LoadTest: a header that repeats a name is modelled as written. Each put replaces the name's earlier entry, so the maps hold the last put for that name in row order, then column order. Strict order of v0m below v1m is promised only for distinct names; RepeatedNameNotOrdered shows a repeated name with equal entries.
- Consolidation.GetFieldTypes: a data line shorter than its header makes `loadTest` throw. The model returns None for it instead of assuming it away.
- Partition.GetFields: requires exactly five headers. The source sizes its result by `headers.length` but always reads five; `getFieldTypes` always gives five.
- Sentinels.SetCommonBooleanMaps: the null `v1m` branch (line 891) is not modelled, because every wave has both maps.
- Sentinels.SetCommonBooleanMaps: the exact codes and returned map are stated only when no recorded name differs from a common name by case alone (`CaseExact`). For other inputs the model states only that codes change from 5 to 4. On what `getFieldTypes` returns the condition holds (`FieldTypesCaseExact`), because `parseHeader` upper-cases the names.
- Emission.Generator.Run: requires every header field to have a code (`HeadersTyped`). `getFieldTypes` gives one to every field it reads, and `fieldTypes.get(field)` would otherwise throw a NullPointerException. The reconciled maps are stated exactly under the same `CaseExact` condition as `SetCommonBooleanMaps`.
- TypeInference.MinByteSlipsThrough and Emission.MinByteReadsAsHigh record a behaviour of the source rather than correct it. `Byte.MIN_VALUE` serves as the "unset" mark of `v0`/`v1`, so a genuine -128 never counts as a sentinel. A column with values -128, a and b therefore stays boolean. Its generated initialiser compares with min(a, b), so it reads -128 as true, like max(a, b).
