/** `OtoYikamaDB.format_plaka`: the licence-plate normaliser that every insert
    and update of a visit record applies to the plate before it is stored.

    The raw plate is upper-cased and stripped of blanks, giving the cleaned
    plate `s` of length `n`. Three shapes are then tried in order; the first
    that matches cuts `s` at fixed offsets into three groups joined by single
    blanks. A plate matching no shape is returned cleaned but otherwise
    unchanged. */
module Database {
  import opened PyStr

  /** The f-string `f"{a} {b} {c}"`. */
  function Spaced(a: seq<char>, b: seq<char>, c: seq<char>): (r: seq<char>)
    ensures |r| == |a| + |b| + |c| + 2
    ensures r[|a|] == ' ' && r[|a| + 1 + |b|] == ' '
    ensures r[..|a|] == a && r[|a| + 1..|a| + 1 + |b|] == b && r[|a| + |b| + 2..] == c
  {
    a + " " + b + " " + c
  }

  /** `plaka.upper().replace(" ", "")`: the cleaned plate. */
  function Clean(raw: seq<char>): (s: seq<char>)
    ensures ' ' !in s && IsUpper(s)
  {
    UpperRemoveSpacesCommute(raw);
    UpperFixesUpper(RemoveSpaces(raw));
    RemoveSpaces(Upper(raw))
  }

  /** Shape A: two leading digits, a run of letters, two trailing digits, total length 7 to 9.
      Equivalently, position by position: digits in the first two and last two places,
      letters everywhere else. */
  predicate MatchesA(s: seq<char>): (b: bool)
    ensures b <==> (
      (|s| == 7 || |s| == 8 || |s| == 9)
      && forall i :: 0 <= i < |s| ==> if i < 2 || |s| - 2 <= i then IsDigit(s[i]) else IsAlpha(s[i]))
  {
    |s| >= 7
    && AllDigits(s[0..2])
    && AllDigits(s[|s| - 2..])
    && AllAlpha(s[2..|s| - 2])
    && (|s| == 7 || |s| == 8 || |s| == 9)
  }

  /** Shape B: one leading digit, a run of letters, three trailing digits, total length 6 or 7.
      Equivalently, position by position: digits in the first place and the last three,
      letters everywhere else. */
  predicate MatchesB(s: seq<char>): (b: bool)
    ensures b <==> (
      (|s| == 6 || |s| == 7)
      && forall i :: 0 <= i < |s| ==> if i < 1 || |s| - 3 <= i then IsDigit(s[i]) else IsAlpha(s[i]))
  {
    |s| >= 6
    && IsDigit(s[0])
    && AllDigits(s[|s| - 3..])
    && AllAlpha(s[1..|s| - 3])
    && (|s| == 6 || |s| == 7)
  }

  /** Shape C: three leading digits, a run of letters, three trailing digits, total length 9 or 10.
      Equivalently, position by position: digits in the first three and last three places,
      letters everywhere else. */
  predicate MatchesC(s: seq<char>): (b: bool)
    ensures b <==> (
      (|s| == 9 || |s| == 10)
      && forall i :: 0 <= i < |s| ==> if i < 3 || |s| - 3 <= i then IsDigit(s[i]) else IsAlpha(s[i]))
  {
    |s| >= 9
    && AllDigits(s[0..3])
    && AllDigits(s[|s| - 3..])
    && AllAlpha(s[3..|s| - 3])
    && (|s| == 9 || |s| == 10)
  }

  /** The shape rules applied to an already cleaned plate, in the source's priority order.
      The result is the plate itself or the plate cut after one, two or three characters
      and again three characters later, so the middle group always has three characters. */
  function FormatCleaned(s: seq<char>): (r: seq<char>)
    ensures r == s || exists k: nat :: 1 <= k <= 3 && k + 3 <= |s| && r == Layout(s, k)
  {
    if MatchesA(s) then
      assert s[0..2] == s[..2];
      assert Spaced(s[0..2], s[2..5], s[5..]) == Layout(s, 2);
      Spaced(s[0..2], s[2..5], s[5..])
    else if MatchesB(s) then
      assert [s[0]] == s[..1];
      assert Spaced([s[0]], s[1..4], s[4..]) == Layout(s, 1);
      Spaced([s[0]], s[1..4], s[4..])
    else if MatchesC(s) then
      assert s[0..3] == s[..3];
      assert Spaced(s[0..3], s[3..6], s[6..]) == Layout(s, 3);
      Spaced(s[0..3], s[3..6], s[6..])
    else s
  }

  /** A cleaned plate cut after `k` characters and again three characters later. */
  function Layout(s: seq<char>, k: nat): (r: seq<char>)
    requires 1 <= k && k + 3 <= |s|
    ensures |r| == |s| + 2 && r[k] == ' ' && r[k + 4] == ' '
  {
    Spaced(s[..k], s[k..k + 3], s[k + 3..])
  }

  /** `format_plaka(plaka)`: the shape rules applied to the cleaned plate. */
  function FormatPlaka(raw: seq<char>): (r: seq<char>)
    ensures var s := Clean(raw);
      r == s || exists k: nat :: 1 <= k <= 3 && k + 3 <= |s| && r == Layout(s, k)
  {
    FormatCleaned(Clean(raw))
  }

  /** Deleting the blanks of `f"{a} {b} {c}"` joins the three groups back together. */
  lemma SpacedRoundTrip(a: seq<char>, b: seq<char>, c: seq<char>)
    requires ' ' !in a && ' ' !in b && ' ' !in c
    ensures RemoveSpaces(Spaced(a, b, c)) == a + b + c
  {
    assert RemoveSpaces(" ") == [];
    RemoveSpacesConcat(a + " " + b + " ", c);
    RemoveSpacesConcat(a + " " + b, " ");
    RemoveSpacesConcat(a + " ", b);
    RemoveSpacesConcat(a, " ");
  }

  /** Deleting the two blanks of a layout gives back the plate. */
  lemma LayoutRoundTrip(s: seq<char>, k: nat)
    requires 1 <= k && k + 3 <= |s| && ' ' !in s
    ensures RemoveSpaces(Layout(s, k)) == s
  {
    assert ' ' !in s[..k] && ' ' !in s[k..k + 3] && ' ' !in s[k + 3..] by {
      assert forall c :: c in s[..k] || c in s[k..k + 3] || c in s[k + 3..] ==> c in s;
    }
    SpacedRoundTrip(s[..k], s[k..k + 3], s[k + 3..]);
    assert s[..k] + s[k..k + 3] + s[k + 3..] == s;
  }

  /** A layout of an upper-case plate is upper-case. */
  lemma LayoutUpper(s: seq<char>, k: nat)
    requires 1 <= k && k + 3 <= |s| && IsUpper(s)
    ensures IsUpper(Layout(s, k))
  {
  }

  // ---------------------------------------------------------------------------
  // Shape exclusivity

  /** No two shapes match the same cleaned plate, so the order in which they are tried never matters. */
  lemma ShapesDisjoint(s: seq<char>)
    ensures !(MatchesA(s) && MatchesB(s))
    ensures !(MatchesA(s) && MatchesC(s))
    ensures !(MatchesB(s) && MatchesC(s))
  {
    if MatchesA(s) {
      assert IsDigit(s[1]) && IsAlpha(s[2]);
    }
  }

  // ---------------------------------------------------------------------------
  // What each shape produces, as an if-and-only-if

  /** On a cleaned plate, the result is cut 2:5 exactly when shape A matches. */
  lemma ShapeA(s: seq<char>)
    requires ' ' !in s && |s| >= 5
    ensures FormatCleaned(s) == Spaced(s[..2], s[2..5], s[5..]) <==> MatchesA(s)
  {
  }

  /** On a cleaned plate, the result is cut 1:4 exactly when shape B matches. */
  lemma ShapeB(s: seq<char>)
    requires ' ' !in s && |s| >= 4
    ensures FormatCleaned(s) == Spaced(s[..1], s[1..4], s[4..]) <==> MatchesB(s)
  {
  }

  /** On a cleaned plate, the result is cut 3:6 exactly when shape C matches. */
  lemma ShapeC(s: seq<char>)
    requires ' ' !in s && |s| >= 6
    ensures FormatCleaned(s) == Spaced(s[..3], s[3..6], s[6..]) <==> MatchesC(s)
  {
  }

  /** On a cleaned plate, the plate comes back unchanged exactly when no shape matches. */
  lemma FallThrough(s: seq<char>)
    requires ' ' !in s
    ensures FormatCleaned(s) == s <==> !MatchesA(s) && !MatchesB(s) && !MatchesC(s)
  {
  }

  /** Plates shorter than six characters, after cleaning, never match. */
  lemma ShortPlateUnchanged(raw: seq<char>)
    requires |Clean(raw)| < 6
    ensures FormatPlaka(raw) == Clean(raw)
  {
  }

  // ---------------------------------------------------------------------------
  // Consequences of fixed cut points

  /** Shape A never accepts three or four trailing digits: the character before the
      last two must be a letter. */
  lemma ShapeATakesTwoTrailingDigits(s: seq<char>)
    requires MatchesA(s)
    ensures IsAlpha(s[|s| - 3]) && !IsDigit(s[|s| - 3])
  {
  }

  /** When the letter run is longer than three, the extra letters go to the last group. */
  lemma LettersSpillIntoLastGroup(s: seq<char>)
    requires (MatchesA(s) && |s| >= 8) || (MatchesC(s) && |s| == 10)
    ensures var r := FormatCleaned(s);
      var k := if MatchesA(s) then 2 else 3;
      r[k + 5] == s[k + 3] && IsAlpha(r[k + 5])
  {
  }

  /** Shape B on six characters puts the first trailing digit into the middle group. */
  lemma ShapeBShortMiddleHoldsDigit(s: seq<char>)
    requires MatchesB(s) && |s| == 6
    ensures var r := FormatCleaned(s);
      r[2..5] == s[1..4] && IsDigit(r[4])
  {
  }

  // ---------------------------------------------------------------------------
  // Cleaning, round trip and idempotence

  /** Cleaning an already cleaned plate changes nothing. */
  lemma CleanIdempotent(raw: seq<char>)
    ensures Clean(Clean(raw)) == Clean(raw)
  {
  }

  /** The result depends on the input only through its upper-cased form. */
  lemma CaseInsensitive(raw: seq<char>)
    ensures FormatPlaka(Upper(raw)) == FormatPlaka(raw)
  {
    UpperFixesUpper(raw);
    UpperFixesUpper(Upper(raw));
    assert Upper(Upper(raw)) == Upper(raw);
  }

  /** The result does not depend on where the input has blanks. */
  lemma SpaceInsensitive(raw: seq<char>)
    ensures FormatPlaka(RemoveSpaces(raw)) == FormatPlaka(raw)
  {
    UpperRemoveSpacesCommute(raw);
    UpperRemoveSpacesCommute(RemoveSpaces(raw));
  }

  /** Deleting the blanks of the result gives back the cleaned plate; the result is the
      cleaned plate itself or that plate with exactly two blanks inserted. */
  lemma RoundTrip(raw: seq<char>)
    ensures var r := FormatPlaka(raw); var s := Clean(raw);
      RemoveSpaces(r) == s && (|r| == |s| || |r| == |s| + 2)
  {
    var r := FormatPlaka(raw);
    var s := Clean(raw);
    if r != s {
      var k: nat :| 1 <= k <= 3 && k + 3 <= |s| && r == Layout(s, k);
      LayoutRoundTrip(s, k);
    }
  }

  /** Formatting a formatted plate changes nothing. */
  lemma Idempotent(raw: seq<char>)
    ensures FormatPlaka(FormatPlaka(raw)) == FormatPlaka(raw)
  {
    var r := FormatPlaka(raw);
    var s := Clean(raw);
    if r != s {
      var k: nat :| 1 <= k <= 3 && k + 3 <= |s| && r == Layout(s, k);
      LayoutRoundTrip(s, k);
      LayoutUpper(s, k);
    }
    UpperFixesUpper(r);
    UpperRemoveSpacesCommute(r);
    assert Clean(r) == s;
  }

  // ---------------------------------------------------------------------------
  // Plates already in clean form

  /** A plate that is already upper-case and free of blanks is its own cleaned form. */
  lemma CleanOfCleaned(s: seq<char>)
    requires ' ' !in s && IsUpper(s)
    ensures Clean(s) == s
  {
  }

  /** A plate made only of digits and letters has no blank. */
  lemma NoBlankInShape(s: seq<char>)
    requires MatchesA(s) || MatchesB(s) || MatchesC(s)
    ensures ' ' !in s
  {
  }

  /** An upper-case plate of shape A is returned cut 2:5. */
  lemma CleanPlateShapeA(s: seq<char>)
    requires IsUpper(s) && MatchesA(s)
    ensures FormatPlaka(s) == Spaced(s[..2], s[2..5], s[5..])
  {
    NoBlankInShape(s);
    CleanOfCleaned(s);
    ShapeA(s);
  }

  /** An upper-case plate of shape B is returned cut 1:4. */
  lemma CleanPlateShapeB(s: seq<char>)
    requires IsUpper(s) && MatchesB(s)
    ensures FormatPlaka(s) == Spaced(s[..1], s[1..4], s[4..])
  {
    NoBlankInShape(s);
    CleanOfCleaned(s);
    ShapeB(s);
  }

  /** An upper-case plate of shape C is returned cut 3:6. */
  lemma CleanPlateShapeC(s: seq<char>)
    requires IsUpper(s) && MatchesC(s)
    ensures FormatPlaka(s) == Spaced(s[..3], s[3..6], s[6..])
  {
    NoBlankInShape(s);
    CleanOfCleaned(s);
    ShapeC(s);
  }

  /** An upper-case, blank-free plate of no shape is returned as it is. */
  lemma CleanPlateNoShape(s: seq<char>)
    requires IsUpper(s) && ' ' !in s && !MatchesA(s) && !MatchesB(s) && !MatchesC(s)
    ensures FormatPlaka(s) == s
  {
    CleanOfCleaned(s);
    FallThrough(s);
  }

  // ---------------------------------------------------------------------------
  // Worked examples

  /** `2ABC333` has shape B: one digit, three letters, three digits. */
  lemma DocstringPlateMatchesB()
    ensures MatchesB("2ABC333")
  {
  }

  /** The shape rules cut `2ABC333` as `2 ABC 333` (shape B, length 7). */
  lemma ExampleShapeB()
    ensures FormatCleaned("2ABC333") == Spaced("2", "ABC", "333")
  {
    var s := "2ABC333";
    DocstringPlateMatchesB();
    ShapesDisjoint(s);
    assert [s[0]] == "2" && s[1..4] == "ABC" && s[4..] == "333";
  }

  /** `323ABB344` has shape C: three digits, three letters, three digits. */
  lemma DocstringPlateMatchesC()
    ensures MatchesC("323ABB344")
  {
  }

  /** The shape rules cut `323ABB344` as `323 ABB 344` (shape C, length 9). */
  lemma ExampleShapeC()
    ensures FormatCleaned("323ABB344") == Spaced("323", "ABB", "344")
  {
    var s := "323ABB344";
    DocstringPlateMatchesC();
    ShapesDisjoint(s);
    assert s[0..3] == "323" && s[3..6] == "ABB" && s[6..] == "344";
  }

  /** The docstring's plates are already upper-case and free of blanks, so cleaning
      leaves them as they are. */
  lemma DocstringPlatesClean()
    ensures Clean("2ABC333") == "2ABC333"
    ensures Clean("323ABB344") == "323ABB344"
  {
    CleanOfCleaned("2ABC333");
    CleanOfCleaned("323ABB344");
  }

  /** The docstring's examples `2ABC333 -> 2 ABC 333` and `323ABB344 -> 323 ABB 344`
      hold for `format_plaka` itself. */
  lemma DocstringExamples()
    ensures FormatPlaka("2ABC333") == Spaced("2", "ABC", "333")
    ensures FormatPlaka("323ABB344") == Spaced("323", "ABB", "344")
  {
    DocstringPlatesClean();
    ExampleShapeB();
    ExampleShapeC();
  }

  /** The docstring's first example does not hold: `09AEU143` has three trailing digits,
      so it matches no shape and comes back unchanged. */
  lemma ExampleDocstringFalse()
    ensures FormatPlaka("09AEU143") == "09AEU143"
  {
    var s := "09AEU143";
    assert IsUpper(s) && ' ' !in s;
    assert !MatchesA(s) by { assert !IsAlpha(s[5]); }
    assert !MatchesB(s) by { assert !IsAlpha(s[1]); }
    CleanPlateNoShape(s);
  }

  /** Lower-case input is upper-cased before the shapes are tried: `09aeu143` gives the
      same result as `09AEU143`. */
  lemma ExampleLowerCase()
    ensures FormatPlaka("09aeu143") == FormatPlaka("09AEU143")
  {
    ExampleUpper();
    CaseInsensitive("09aeu143");
  }

  /** `09ABCD12` has shape A: two digits, four letters, two digits. */
  lemma LongLettersMatchA()
    ensures MatchesA("09ABCD12")
  {
  }

  /** Shape A with four letters: the fourth letter goes to the last group. The plate is
      already in clean form, so this is also what `FormatPlaka` returns (`CleanOfCleaned`). */
  lemma ExampleShapeALongLetters()
    ensures FormatCleaned("09ABCD12") == Spaced("09", "ABC", "D12")
  {
    var s := "09ABCD12";
    LongLettersMatchA();
    assert s[0..2] == "09" && s[2..5] == "ABC" && s[5..] == "D12";
  }

  /** `2AB333` has shape B: one digit, two letters, three digits. */
  lemma ShortPlateMatchesB()
    ensures MatchesB("2AB333")
  {
  }

  /** Shape B with six characters: a digit lands in the middle group. */
  lemma ExampleShapeBShort()
    ensures FormatCleaned("2AB333") == Spaced("2", "AB3", "33")
  {
    var s := "2AB333";
    ShortPlateMatchesB();
    ShapesDisjoint(s);
    assert [s[0]] == "2" && s[1..4] == "AB3" && s[4..] == "33";
  }

  /** `323ABCD344` has shape C: three digits, four letters, three digits. */
  lemma LongLettersMatchC()
    ensures MatchesC("323ABCD344")
  {
  }

  /** Shape C with four letters: the fourth letter goes to the last group. */
  lemma ExampleShapeCLongLetters()
    ensures FormatCleaned("323ABCD344") == Spaced("323", "ABC", "D344")
  {
    var s := "323ABCD344";
    LongLettersMatchC();
    ShapesDisjoint(s);
    assert s[0..3] == "323" && s[3..6] == "ABC" && s[6..] == "D344";
  }

  /** Plates too short or without letters come back unchanged. */
  lemma ExamplesUnchanged()
    ensures FormatPlaka("AB") == "AB"
    ensures FormatPlaka("12345") == "12345"
  {
    CleanOfCleaned("AB");
    CleanOfCleaned("12345");
  }

  /** The plates named in the comments of the length-8 and length-9 branches of shape A,
      the length-7 branch of shape B and the length-10 branch of shape C never reach
      those branches: each matches no shape and comes back unchanged. */
  lemma BranchCommentPlatesUnchanged()
    ensures FormatCleaned("09AEU1434") == "09AEU1434"
    ensures FormatCleaned("09AEU14345") == "09AEU14345"
    ensures FormatCleaned("2ABC3334") == "2ABC3334"
    ensures FormatCleaned("323ABB3444") == "323ABB3444"
  {
    var a := "09AEU1434";
    assert !MatchesA(a) by { assert !IsAlpha(a[5]); }
    assert !MatchesC(a) by { assert !IsDigit(a[2]); }

    var b := "09AEU14345";
    assert !MatchesC(b) by { assert !IsDigit(b[2]); }

    var c := "2ABC3334";
    assert !MatchesA(c) by { assert !IsDigit(c[1]); }

    var d := "323ABB3444";
    assert !MatchesC(d) by { assert !IsAlpha(d[6]); }
  }
}
