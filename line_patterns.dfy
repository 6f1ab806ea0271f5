/**
  The two line patterns of server/src/utils/populateData.js as string functions that
  follow JavaScript's regular-expression semantics:
    faculty     /^([A-Z]+)\s+(.+)$/
    department  /^([A-Z]+)\s+(.+)\s+\(([A-Z]+)\)$/
  Without the `s` and `m` flags, `.` matches every character except a line terminator
  (LF, CR, U+2028, U+2029), `$` matches only at the end of the line, and `\s` matches
  white space INCLUDING line terminators. Groups are found by backtracking: each greedy
  quantifier tries its longest extent first and gives back one character at a time.
  The matchers work on index ranges of the line; the shapes further down read the patterns
  declaratively, as concatenations of pieces.
*/
module LinePatterns {
  import opened Wrappers

  predicate IsUpper(c: char) { 'A' <= c <= 'Z' }

  predicate IsLineTerminator(c: char) {
    c == '\n' || c == '\r' || c == '\U{2028}' || c == '\U{2029}'
  }

  /** The class `\s` (also what `String.prototype.trim` removes). */
  predicate IsSpace(c: char) {
    || IsLineTerminator(c)
    || c == '\t' || c == '\U{000B}' || c == '\U{000C}' || c == ' ' || c == '\U{00A0}' || c == '\U{1680}'
    || ('\U{2000}' <= c <= '\U{200A}') || c == '\U{202F}' || c == '\U{205F}' || c == '\U{3000}'
    || c == '\U{FEFF}'
  }

  /** line[i..j] is matched by `[A-Z]*`. */
  predicate UpperIn(line: string, i: nat, j: nat)
    requires i <= j <= |line|
  {
    forall t :: i <= t < j ==> IsUpper(line[t])
  }

  /** line[i..j] is matched by `\s*`. */
  predicate SpaceIn(line: string, i: nat, j: nat)
    requires i <= j <= |line|
  {
    forall t :: i <= t < j ==> IsSpace(line[t])
  }

  /** line[i..j] is matched by `.*`. */
  predicate DotIn(line: string, i: nat, j: nat)
    requires i <= j <= |line|
  {
    forall t :: i <= t < j ==> !IsLineTerminator(line[t])
  }

  /** Where a greedy `[A-Z]+` starting at `i` stops. */
  function UpperEnd(line: string, i: nat): (j: nat)
    requires i <= |line|
    ensures i <= j <= |line| && UpperIn(line, i, j)
    ensures j < |line| ==> !IsUpper(line[j])
    decreases |line| - i
  {
    if i < |line| && IsUpper(line[i]) then UpperEnd(line, i + 1) else i
  }

  /** Where a greedy `\s+` starting at `i` stops, not going past `q`. */
  function SpaceEnd(line: string, i: nat, q: nat): (j: nat)
    requires i <= q <= |line|
    ensures i <= j <= q && SpaceIn(line, i, j)
    ensures j < q ==> !IsSpace(line[j])
    decreases q - i
  {
    if i < q && IsSpace(line[i]) then SpaceEnd(line, i + 1, q) else i
  }

  /** Where the longest upper-case run ending at `j` starts. */
  function UpperStart(line: string, j: nat): (i: nat)
    requires j <= |line|
    ensures i <= j && UpperIn(line, i, j)
    ensures 0 < i ==> !IsUpper(line[i - 1])
  {
    if 0 < j && IsUpper(line[j - 1]) then UpperStart(line, j - 1) else j
  }

  /** The groups of a faculty line. */
  datatype FacultyMatch = FacultyMatch(code: string, title: string)

  /** The groups of a department line: the leading code, the middle title, the parenthesised code. */
  datatype DepartmentMatch = DepartmentMatch(facultyCode: string, title: string, code: string)

  /** After a code ending at `k`, a gap of `g` characters leaves a non-empty `.+$` title. */
  predicate FacultyGapFits(line: string, k: nat, g: nat) {
    k + g < |line| && DotIn(line, k + g, |line|)
  }

  /** `\s+` giving back from `g` characters: the longest gap after which `(.+)$` matches. */
  function FacultyGap(line: string, k: nat, g: nat): (r: Option<nat>)
    ensures r.Some? ==> 1 <= r.value <= g && FacultyGapFits(line, k, r.value)
    ensures r.Some? ==> forall h :: r.value < h <= g ==> !FacultyGapFits(line, k, h)
    ensures r.None? ==> forall h :: 1 <= h <= g ==> !FacultyGapFits(line, k, h)
    decreases g
  {
    if g == 0 then None
    else if FacultyGapFits(line, k, g) then Some(g)
    else FacultyGap(line, k, g - 1)
  }

  /** /^([A-Z]+)\s+(.+)$/ */
  function MatchFaculty(line: string): Option<FacultyMatch> {
    var k := UpperEnd(line, 0);
    if k == 0 then None
    else
      match FacultyGap(line, k, SpaceEnd(line, k, |line|) - k)
      case None => None
      case Some(g) => Some(FacultyMatch(line[..k], line[k + g..]))
  }

  /** `(.+)\s+` from `s` to the `(` at `q`, with the title ending at `e`. */
  predicate TitleFits(line: string, s: nat, e: nat, q: nat) {
    s < e < q <= |line| && DotIn(line, s, e) && SpaceIn(line, e, q)
  }

  /** The greedy title: the largest end `e <= last` that fits. */
  function TitleEnd(line: string, s: nat, q: nat, last: int): (r: Option<nat>)
    ensures r.Some? ==> r.value <= last && TitleFits(line, s, r.value, q)
    ensures r.Some? ==> forall e :: r.value < e <= last ==> !TitleFits(line, s, e, q)
    ensures r.None? ==> forall e :: s < e <= last ==> !TitleFits(line, s, e, q)
    decreases last - s
  {
    if last <= s then None
    else if TitleFits(line, s, last, q) then Some(last)
    else TitleEnd(line, s, q, last - 1)
  }

  /** With a first gap of `g` characters after the code ending at `k`, a title and a second gap fit before `q`. */
  predicate GapFits(line: string, k: nat, g: nat, q: nat) {
    TitleEnd(line, k + g, q, q - 1).Some?
  }

  /**
    The first `\s+` after the code ending at `k`, taking `i` characters and giving back one
    at a time until the rest of the pattern matches up to the `(` at `q`; the result is the
    gap's length and the title's end.
  */
  function DepartmentSplit(line: string, k: nat, q: nat, i: nat): (r: Option<(nat, nat)>)
    ensures r.Some? ==> 1 <= r.value.0 <= i && TitleFits(line, k + r.value.0, r.value.1, q)
    ensures r.Some? ==> TitleEnd(line, k + r.value.0, q, q - 1) == Some(r.value.1)
    ensures r.Some? ==> forall g :: r.value.0 < g <= i ==> !GapFits(line, k, g, q)
    ensures r.None? ==> forall g :: 1 <= g <= i ==> !GapFits(line, k, g, q)
    decreases i
  {
    if i == 0 then None
    else
      match TitleEnd(line, k + i, q, q - 1)
      case Some(e) => Some((i, e))
      case None => DepartmentSplit(line, k, q, i - 1)
  }

  /** The `\(([A-Z]+)\)$` tail: the position of its `(`, which is unique since the group holds no `(`. */
  function ParenTail(line: string): (r: Option<nat>)
    ensures r.Some? ==> r.value + 2 < |line| && line[r.value] == '(' && line[|line| - 1] == ')'
    ensures r.Some? ==> UpperIn(line, r.value + 1, |line| - 1)
  {
    if |line| < 3 || line[|line| - 1] != ')' then None
    else
      var u := UpperStart(line, |line| - 1);
      if u == |line| - 1 || u == 0 || line[u - 1] != '(' then None
      else Some(u - 1)
  }

  /** /^([A-Z]+)\s+(.+)\s+\(([A-Z]+)\)$/ */
  function MatchDepartment(line: string): Option<DepartmentMatch> {
    var k := UpperEnd(line, 0);
    if k == 0 then None
    else
      match ParenTail(line)
      case None => None
      case Some(q) =>
        assert !IsUpper(line[q]);
        match DepartmentSplit(line, k, q, SpaceEnd(line, k, q) - k)
        case None => None
        case Some(split) => Some(DepartmentMatch(line[..k], line[k + split.0..split.1], line[q + 1..|line| - 1]))
  }

  predicate AllUpper(s: string) { forall i :: 0 <= i < |s| ==> IsUpper(s[i]) }

  predicate AllSpace(s: string) { forall i :: 0 <= i < |s| ==> IsSpace(s[i]) }

  /** Every character is matched by `.`. */
  predicate NoTerminator(s: string) { forall i :: 0 <= i < |s| ==> !IsLineTerminator(s[i]) }

  /** The faculty pattern, read declaratively: code, white space, and a terminator-free title. */
  predicate FacultyShape(line: string, code: string, gap: string, title: string) {
    && line == code + gap + title
    && code != [] && AllUpper(code)
    && gap != [] && AllSpace(gap)
    && title != [] && NoTerminator(title)
  }

  /** The department pattern, read declaratively. */
  predicate DepartmentShape(line: string, facultyCode: string, gap1: string, title: string, gap2: string, code: string) {
    && line == facultyCode + gap1 + title + gap2 + "(" + code + ")"
    && facultyCode != [] && AllUpper(facultyCode)
    && gap1 != [] && AllSpace(gap1)
    && title != [] && NoTerminator(title)
    && gap2 != [] && AllSpace(gap2)
    && code != [] && AllUpper(code)
  }

  /** The index-range predicates say the same as the predicates on the slice. */
  lemma SliceForms(line: string, i: nat, j: nat)
    requires i <= j <= |line|
    ensures UpperIn(line, i, j) <==> AllUpper(line[i..j])
    ensures SpaceIn(line, i, j) <==> AllSpace(line[i..j])
    ensures DotIn(line, i, j) <==> NoTerminator(line[i..j])
  {
    assert forall t :: i <= t < j ==> line[i..j][t - i] == line[t];
  }

  /** The greedy code group stops at the first character that is not upper case. */
  lemma UpperEndStops(line: string, i: nat, j: nat)
    requires i <= j <= |line| && UpperIn(line, i, j) && (j < |line| ==> !IsUpper(line[j]))
    ensures UpperEnd(line, i) == j
  {
  }

  /** The greedy white-space run stops at the first character that is not white space. */
  lemma SpaceEndStops(line: string, i: nat, j: nat, q: nat)
    requires i <= j <= q <= |line| && SpaceIn(line, i, j) && (j < q ==> !IsSpace(line[j]))
    ensures SpaceEnd(line, i, q) == j
  {
  }

  /** The greedy white-space run covers any white space that starts where it starts. */
  lemma SpaceEndCovers(line: string, i: nat, j: nat, q: nat)
    requires i <= j <= q <= |line| && SpaceIn(line, i, j)
    ensures SpaceEnd(line, i, q) >= j
  {
  }

  /** A line is the concatenation of its pieces on either side of two cuts. */
  lemma CutInThree(line: string, k: nat, s: nat)
    requires k <= s <= |line|
    ensures line == line[..k] + line[k..s] + line[s..]
  {
    assert line[..s] == line[..k] + line[k..s];
    assert line == line[..s] + line[s..];
  }

  /** One path through the department matcher: the first gap gives nothing back, and the title takes all but one character before `(`. */
  lemma MatchDepartmentUnfold(line: string, k: nat, q: nat, i: nat, e: nat)
    requires 0 < k <= q && UpperEnd(line, 0) == k && ParenTail(line) == Some(q)
    requires 0 < i && SpaceEnd(line, k, q) == k + i && e + 1 == q && TitleFits(line, k + i, e, q)
    ensures MatchDepartment(line) == Some(DepartmentMatch(line[..k], line[k + i..e], line[q + 1..|line| - 1]))
  {
    assert TitleEnd(line, k + i, q, q - 1) == Some(e);
    assert DepartmentSplit(line, k, q, i) == Some((i, e));
  }

  /** The tail `(CODE)` is found wherever the line ends in one. */
  lemma ParenTailComplete(line: string, q: nat)
    requires q + 2 < |line| && line[q] == '(' && line[|line| - 1] == ')' && UpperIn(line, q + 1, |line| - 1)
    ensures ParenTail(line) == Some(q)
  {
    assert UpperStart(line, |line| - 1) == q + 1 by {
      assert !IsUpper(line[q]);
    }
  }

  /** The boundaries the faculty matcher settles on. */
  lemma FacultyBounds(line: string) returns (k: nat, s: nat)
    requires MatchFaculty(line).Some?
    ensures 0 < k < s < |line| && UpperIn(line, 0, k) && SpaceIn(line, k, s) && DotIn(line, s, |line|)
    ensures k == UpperEnd(line, 0) && s <= SpaceEnd(line, k, |line|)
    ensures MatchFaculty(line) == Some(FacultyMatch(line[..k], line[s..]))
  {
    k := UpperEnd(line, 0);
    s := k + FacultyGap(line, k, SpaceEnd(line, k, |line|) - k).value;
  }

  /** A line cut at the two boundaries of the faculty pattern is matched, with the cut's code. */
  lemma FacultyFromBounds(line: string, k: nat, s: nat)
    requires 0 < k < s < |line| && UpperIn(line, 0, k) && SpaceIn(line, k, s) && DotIn(line, s, |line|)
    ensures MatchFaculty(line).Some? && MatchFaculty(line).value.code == line[..k]
  {
    UpperEndStops(line, 0, k);
    SpaceEndCovers(line, k, s, |line|);
    assert FacultyGapFits(line, k, s - k);
  }

  /** What the faculty matcher returns has the faculty shape. */
  lemma MatchFacultySound(line: string)
    requires MatchFaculty(line).Some?
    ensures var m := MatchFaculty(line).value;
            exists gap :: FacultyShape(line, m.code, gap, m.title)
  {
    var k, s := FacultyBounds(line);
    SliceForms(line, 0, k);
    SliceForms(line, k, s);
    SliceForms(line, s, |line|);
    CutInThree(line, k, s);
    assert FacultyShape(line, line[..k], line[k..s], line[s..]);
  }

  /** Every line of the faculty shape is matched, with the shape's code as the first group. */
  lemma MatchFacultyComplete(line: string, code: string, gap: string, title: string)
    requires FacultyShape(line, code, gap, title)
    ensures MatchFaculty(line).Some? && MatchFaculty(line).value.code == code
  {
    var k, s := |code|, |code| + |gap|;
    assert line[..k] == code && line[k..s] == gap && line[s..] == title;
    SliceForms(line, 0, k);
    SliceForms(line, k, s);
    SliceForms(line, s, |line|);
    FacultyFromBounds(line, k, s);
  }

  /** When the title starts with a character that is not white space, the groups are exactly the shape's pieces. */
  lemma MatchFacultyExact(line: string, code: string, gap: string, title: string)
    requires FacultyShape(line, code, gap, title) && !IsSpace(title[0])
    ensures MatchFaculty(line) == Some(FacultyMatch(code, title))
  {
    var k, s := |code|, |code| + |gap|;
    assert line[..k] == code && line[k..s] == gap && line[s..] == title;
    SliceForms(line, 0, k);
    SliceForms(line, k, s);
    SliceForms(line, s, |line|);
    UpperEndStops(line, 0, k);
    SpaceEndStops(line, k, s, |line|);
    assert FacultyGap(line, k, s - k) == Some(s - k);
  }

  /** The boundaries the department matcher settles on. */
  lemma DepartmentBounds(line: string) returns (k: nat, s: nat, e: nat, q: nat)
    requires MatchDepartment(line).Some?
    ensures 0 < k < s < e < q && q + 2 < |line| && line[q] == '(' && line[|line| - 1] == ')'
    ensures UpperIn(line, 0, k) && SpaceIn(line, k, s) && DotIn(line, s, e) && SpaceIn(line, e, q)
    ensures UpperIn(line, q + 1, |line| - 1)
    ensures MatchDepartment(line) == Some(DepartmentMatch(line[..k], line[s..e], line[q + 1..|line| - 1]))
  {
    k := UpperEnd(line, 0);
    q := ParenTail(line).value;
    assert !IsUpper(line[q]);
    var split := DepartmentSplit(line, k, q, SpaceEnd(line, k, q) - k).value;
    s, e := k + split.0, split.1;
  }

  /** A line cut at the four boundaries of the department pattern is matched, with the cut's codes. */
  lemma DepartmentFromBounds(line: string, k: nat, s: nat, e: nat, q: nat)
    requires 0 < k < s < e < q && q + 2 < |line| && line[q] == '(' && line[|line| - 1] == ')'
    requires UpperIn(line, 0, k) && SpaceIn(line, k, s) && DotIn(line, s, e) && SpaceIn(line, e, q)
    requires UpperIn(line, q + 1, |line| - 1)
    ensures MatchDepartment(line).Some?
    ensures MatchDepartment(line).value.facultyCode == line[..k]
    ensures MatchDepartment(line).value.code == line[q + 1..|line| - 1]
  {
    UpperEndStops(line, 0, k);
    ParenTailComplete(line, q);
    SpaceEndCovers(line, k, s, q);
    assert TitleFits(line, s, e, q);
    assert GapFits(line, k, s - k, q);
  }

  /** The pieces between the boundaries of a department line. */
  lemma DepartmentPieces(line: string, k: nat, s: nat, e: nat, q: nat)
    requires 0 < k < s < e < q && q + 2 < |line| && line[q] == '(' && line[|line| - 1] == ')'
    requires UpperIn(line, 0, k) && SpaceIn(line, k, s) && DotIn(line, s, e) && SpaceIn(line, e, q)
    requires UpperIn(line, q + 1, |line| - 1)
    ensures DepartmentShape(line, line[..k], line[k..s], line[s..e], line[e..q], line[q + 1..|line| - 1])
  {
    SliceForms(line, 0, k);
    SliceForms(line, k, s);
    SliceForms(line, s, e);
    SliceForms(line, e, q);
    SliceForms(line, q + 1, |line| - 1);
    assert line == line[..k] + line[k..s] + line[s..e] + line[e..q] + "(" + line[q + 1..|line| - 1] + ")";
  }

  /** What the department matcher returns has the department shape. */
  lemma MatchDepartmentSound(line: string)
    requires MatchDepartment(line).Some?
    ensures var m := MatchDepartment(line).value;
            exists gap1, gap2 :: DepartmentShape(line, m.facultyCode, gap1, m.title, gap2, m.code)
  {
    var k, s, e, q := DepartmentBounds(line);
    DepartmentPieces(line, k, s, e, q);
  }

  /** The boundaries of a line of the department shape. */
  lemma ShapeBounds(line: string, facultyCode: string, gap1: string, title: string, gap2: string, code: string)
    returns (k: nat, s: nat, e: nat, q: nat)
    requires DepartmentShape(line, facultyCode, gap1, title, gap2, code)
    ensures 0 < k < s < e < q && q + 2 < |line| && line[q] == '(' && line[|line| - 1] == ')'
    ensures UpperIn(line, 0, k) && SpaceIn(line, k, s) && DotIn(line, s, e) && SpaceIn(line, e, q)
    ensures UpperIn(line, q + 1, |line| - 1)
    ensures line[..k] == facultyCode && line[k..s] == gap1 && line[s..e] == title && line[e..q] == gap2
    ensures line[q + 1..|line| - 1] == code
  {
    k := |facultyCode|;
    s := k + |gap1|;
    e := s + |title|;
    q := e + |gap2|;
    assert line[..k] == facultyCode;
    assert line[k..s] == gap1;
    assert line[s..e] == title;
    assert line[e..q] == gap2;
    assert line[q + 1..|line| - 1] == code;
    SliceForms(line, 0, k);
    SliceForms(line, k, s);
    SliceForms(line, s, e);
    SliceForms(line, e, q);
    SliceForms(line, q + 1, |line| - 1);
  }

  /** Every line of the department shape is matched, with the shape's two codes as groups 1 and 3. */
  lemma MatchDepartmentComplete(line: string, facultyCode: string, gap1: string, title: string, gap2: string,
                                code: string)
    requires DepartmentShape(line, facultyCode, gap1, title, gap2, code)
    ensures MatchDepartment(line).Some?
    ensures MatchDepartment(line).value.facultyCode == facultyCode
    ensures MatchDepartment(line).value.code == code
  {
    var k, s, e, q := ShapeBounds(line, facultyCode, gap1, title, gap2, code);
    DepartmentFromBounds(line, k, s, e, q);
  }

  /** The matcher's path when the title starts with a non-space and one white-space character precedes `(`. */
  lemma DepartmentExactBounds(line: string, k: nat, s: nat, e: nat, q: nat)
    requires 0 < k < s < e && e + 1 == q && q + 2 < |line| && line[q] == '(' && line[|line| - 1] == ')'
    requires UpperIn(line, 0, k) && SpaceIn(line, k, s) && DotIn(line, s, e) && IsSpace(line[e])
    requires !IsSpace(line[s]) && UpperIn(line, q + 1, |line| - 1)
    ensures MatchDepartment(line) == Some(DepartmentMatch(line[..k], line[s..e], line[q + 1..|line| - 1]))
  {
    UpperEndStops(line, 0, k);
    ParenTailComplete(line, q);
    SpaceEndStops(line, k, s, q);
    assert TitleFits(line, s, e, q);
    MatchDepartmentUnfold(line, k, q, s - k, e);
  }

  /**
    When the title starts with a character that is not white space and a single white-space
    character precedes the `(`, the groups are exactly the shape's pieces.
  */
  lemma MatchDepartmentExact(line: string, facultyCode: string, gap1: string, title: string, gap2: string,
                             code: string)
    requires DepartmentShape(line, facultyCode, gap1, title, gap2, code)
    requires !IsSpace(title[0]) && |gap2| == 1
    ensures MatchDepartment(line) == Some(DepartmentMatch(facultyCode, title, code))
  {
    var k, s, e, q := ShapeBounds(line, facultyCode, gap1, title, gap2, code);
    assert line[s] == title[0];
    DepartmentExactBounds(line, k, s, e, q);
  }

  /**
    The faculty pattern shadows the department pattern: a line that matches the department
    pattern and holds no line terminator also matches the faculty pattern, with the same code.
  */
  lemma DepartmentLineMatchesFaculty(line: string)
    requires NoTerminator(line) && MatchDepartment(line).Some?
    ensures MatchFaculty(line).Some?
    ensures MatchFaculty(line).value.code == MatchDepartment(line).value.facultyCode
  {
    var k, s, e, q := DepartmentBounds(line);
    assert DotIn(line, s, |line|);
    FacultyFromBounds(line, k, s);
  }

  /** A department line of the listing matches the faculty pattern, the whole rest being its title. */
  lemma FacultyPatternExample()
    ensures MatchFaculty("FSC Computer Science (CSC)") == Some(FacultyMatch("FSC", "Computer Science (CSC)"))
  {
    var line := "FSC Computer Science (CSC)";
    assert line == "FSC" + " " + "Computer Science (CSC)";
    assert FacultyShape(line, "FSC", " ", "Computer Science (CSC)");
    MatchFacultyExact(line, "FSC", " ", "Computer Science (CSC)");
  }

  /** The same line matches the department pattern with the expected three groups. */
  lemma DepartmentPatternExample()
    ensures MatchDepartment("FSC Computer Science (CSC)") == Some(DepartmentMatch("FSC", "Computer Science", "CSC"))
  {
    var line := "FSC Computer Science (CSC)";
    assert line == "FSC" + " " + "Computer Science" + " " + "(" + "CSC" + ")";
    assert AllUpper("FSC") && AllSpace(" ") && AllSpace(" ") && AllUpper("CSC");
    assert NoTerminator("Computer Science");
    MatchDepartmentExact(line, "FSC", " ", "Computer Science", " ", "CSC");
  }

  /** With a carriage return before the `(`, the faculty pattern fails: `.+$` cannot reach the end. */
  lemma CarriageReturnFacultyExample()
    ensures MatchFaculty("FSC Computer Science\r(CSC)").None?
  {
    var line := "FSC Computer Science\r(CSC)";
    UpperEndStops(line, 0, 3);
    SpaceEndStops(line, 3, 4, |line|);
    assert !FacultyGapFits(line, 3, 1) by {
      assert IsLineTerminator(line[20]);
    }
  }

  /** The same line matches the department pattern, the carriage return serving as the second gap. */
  lemma CarriageReturnDepartmentExample()
    ensures MatchDepartment("FSC Computer Science\r(CSC)") == Some(DepartmentMatch("FSC", "Computer Science", "CSC"))
  {
    var line := "FSC Computer Science\r(CSC)";
    assert line == "FSC" + " " + "Computer Science" + "\r" + "(" + "CSC" + ")";
    assert AllUpper("FSC") && AllSpace(" ") && AllSpace("\r") && AllUpper("CSC");
    assert NoTerminator("Computer Science");
    MatchDepartmentExact(line, "FSC", " ", "Computer Science", "\r", "CSC");
  }
}
