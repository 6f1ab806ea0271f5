/**
  The parsing loop of `populateFacultiesAndDepartments` (server/src/utils/populateData.js):
  the listing is split on '\n', header and blank lines are skipped, each remaining line
  is tried against the faculty pattern and then the department pattern, a cursor keeps the
  most recent faculty, faculty codes map to their titles and departments are collected in
  order. The tables are then upserted by code and the two counts are returned.
*/
module Faculties {
  import opened Wrappers
  import opened LinePatterns

  const AcademicSectionHeader := "Academic Section"
  const FacultiesHeader := "Faculties"

  datatype Faculty = Faculty(code: string, title: string)

  datatype Department = Department(code: string, title: string, faculty: string)

  /** Which pattern a line is tried against first: the code's order, or the department pattern first. */
  datatype Order = FacultyFirst | DepartmentFirst

  datatype LineKind = Skipped | FacultyLine(code: string, title: string) | DepartmentLine(groups: DepartmentMatch) | Unmatched

  /** What the loop has built so far: the cursor, the code -> title map and the department list. */
  datatype Catalogue = Catalogue(current: Option<Faculty>, faculties: map<string, string>, departments: seq<Department>)

  const Empty := Catalogue(None, map[], [])

  /** `String.prototype.split('\n')`. */
  function SplitLines(data: string): (lines: seq<string>)
    ensures |lines| >= 1
    ensures forall i :: 0 <= i < |lines| ==> '\n' !in lines[i]
  {
    if data == [] then [[]]
    else
      var rest := SplitLines(data[1..]);
      if data[0] == '\n' then [[]] + rest
      else [[data[0]] + rest[0]] + rest[1..]
  }

  /** `Array.prototype.join('\n')`: the inverse of the split. */
  function JoinLines(lines: seq<string>): string
    requires |lines| >= 1
  {
    if |lines| == 1 then lines[0] else lines[0] + "\n" + JoinLines(lines[1..])
  }

  /** Splitting loses nothing: joining the lines with '\n' gives the listing back. */
  lemma {:induction false} JoinSplit(data: string)
    ensures JoinLines(SplitLines(data)) == data
  {
    if data != [] {
      var rest := SplitLines(data[1..]);
      JoinSplit(data[1..]);
      if data[0] == '\n' {
        assert SplitLines(data) == [[]] + rest;
        assert SplitLines(data)[1..] == rest;
      } else {
        var lines := SplitLines(data);
        assert lines == [[data[0]] + rest[0]] + rest[1..];
        if |rest| == 1 {
          assert JoinLines(lines) == [data[0]] + rest[0];
        } else {
          assert lines[1..] == rest[1..];
          assert JoinLines(rest) == rest[0] + "\n" + JoinLines(rest[1..]);
        }
      }
    }
  }

  /** `!line.trim() || line.startsWith('Academic Section') || line.startsWith('Faculties')`. */
  predicate IsSkipped(line: string) {
    (forall i :: 0 <= i < |line| ==> IsSpace(line[i])) || AcademicSectionHeader <= line || FacultiesHeader <= line
  }

  /** How one line is classified when the patterns are tried in the given order. */
  function ClassifyLine(line: string, order: Order): (r: LineKind)
    ensures IsSkipped(line) <==> r.Skipped?
    ensures r.FacultyLine? ==> MatchFaculty(line) == Some(FacultyMatch(r.code, r.title))
    ensures r.DepartmentLine? ==> MatchDepartment(line) == Some(r.groups)
    ensures r.Unmatched? ==> MatchFaculty(line).None? && MatchDepartment(line).None?
    ensures order == FacultyFirst && MatchFaculty(line).Some? ==> r.Skipped? || r.FacultyLine?
    ensures order == DepartmentFirst && MatchDepartment(line).Some? ==> r.Skipped? || r.DepartmentLine?
  {
    if IsSkipped(line) then Skipped
    else
      match order
      case FacultyFirst =>
        (match MatchFaculty(line)
         case Some(f) => FacultyLine(f.code, f.title)
         case None =>
           match MatchDepartment(line)
           case Some(d) => DepartmentLine(d)
           case None => Unmatched)
      case DepartmentFirst =>
        match MatchDepartment(line)
        case Some(d) => DepartmentLine(d)
        case None =>
          match MatchFaculty(line)
          case Some(f) => FacultyLine(f.code, f.title)
          case None => Unmatched
  }

  /** The effect of one line on the catalogue. */
  function Step(c: Catalogue, line: string, order: Order): (r: Catalogue)
    ensures IsSkipped(line) ==> r == c
    ensures c.faculties.Keys <= r.faculties.Keys && c.departments <= r.departments
    ensures |r.departments| <= |c.departments| + 1
  {
    match ClassifyLine(line, order)
    case FacultyLine(code, title) => Catalogue(Some(Faculty(code, title)), c.faculties[code := title], c.departments)
    case DepartmentLine(m) =>
      if c.current.Some? then c.(departments := c.departments + [Department(m.code, m.title, c.current.value.code)])
      else c
    case _ => c
  }

  /** The catalogue after the loop has seen `lines`. */
  function Scan(lines: seq<string>, order: Order): Catalogue {
    if lines == [] then Empty
    else Step(Scan(lines[..|lines| - 1], order), lines[|lines| - 1], order)
  }

  /** Upserting the departments one after another, by code: `findOneAndUpdate({code}, dept, {upsert: true})`. */
  function Upsert(table: map<string, Department>, departments: seq<Department>): map<string, Department> {
    if departments == [] then table
    else
      var last := departments[|departments| - 1];
      Upsert(table, departments[..|departments| - 1])[last.code := last]
  }

  /** The loop of lines 23-60: the catalogue the lines build, without the cursor. */
  method ParseLines(lines: seq<string>) returns (faculties: map<string, string>, departments: seq<Department>)
    ensures faculties == Scan(lines, FacultyFirst).faculties && departments == Scan(lines, FacultyFirst).departments
  {
    var current: Option<Faculty> := None;
    faculties, departments := map[], [];
    for i := 0 to |lines|
      invariant Catalogue(current, faculties, departments) == Scan(lines[..i], FacultyFirst)
    {
      var line := lines[i];
      assert lines[..i + 1][..i] == lines[..i];
      if (forall j :: 0 <= j < |line| ==> IsSpace(line[j])) || AcademicSectionHeader <= line || FacultiesHeader <= line {
        continue;
      }
      var facultyMatch := MatchFaculty(line);
      if facultyMatch.Some? {
        var code, title := facultyMatch.value.code, facultyMatch.value.title;
        current := Some(Faculty(code, title));
        faculties := faculties[code := title];
        continue;
      }
      var deptMatch := MatchDepartment(line);
      if deptMatch.Some? && current.Some? {
        departments := departments + [Department(deptMatch.value.code, deptMatch.value.title, current.value.code)];
      }
    }
    assert lines[..|lines|] == lines;
  }

  /** The save loop of lines 63-69: every parsed faculty is upserted by code, other rows are kept. */
  method SaveFaculties(table: map<string, string>, faculties: map<string, string>) returns (saved: map<string, string>)
    ensures saved == table + faculties
  {
    saved := table;
    var pending := faculties.Keys;
    while pending != {}
      invariant pending <= faculties.Keys
      invariant saved == table + map code | code in faculties.Keys - pending :: faculties[code]
      decreases pending
    {
      var code :| code in pending;
      saved := saved[code := faculties[code]];
      pending := pending - {code};
    }
    assert faculties.Keys - pending == faculties.Keys;
  }

  /** The save loop of lines 72-77: departments are upserted by code in list order. */
  method SaveDepartments(table: map<string, Department>, departments: seq<Department>)
    returns (saved: map<string, Department>)
    ensures saved == Upsert(table, departments)
  {
    saved := table;
    for j := 0 to |departments|
      invariant saved == Upsert(table, departments[..j])
    {
      assert departments[..j + 1][..j] == departments[..j];
      saved := saved[departments[j].code := departments[j]];
    }
    assert departments[..|departments|] == departments;
  }

  /** `populateFacultiesAndDepartments` with the listing's text and the two tables as parameters. */
  method Populate(data: string, facultyTable: map<string, string>, departmentTable: map<string, Department>)
    returns (facultiesCount: nat, departmentsCount: nat,
             facultiesSaved: map<string, string>, departmentsSaved: map<string, Department>)
    ensures var c := Scan(SplitLines(data), FacultyFirst);
            && facultiesCount == |c.faculties| && departmentsCount == |c.departments|
            && facultiesSaved == facultyTable + c.faculties
            && departmentsSaved == Upsert(departmentTable, c.departments)
  {
    var faculties, departments := ParseLines(SplitLines(data));
    facultiesSaved := SaveFaculties(facultyTable, faculties);
    departmentsSaved := SaveDepartments(departmentTable, departments);
    facultiesCount, departmentsCount := |faculties|, |departments|;
  }

  /** The cursor names a recorded faculty, and every department's faculty is a recorded code. */
  ghost predicate Consistent(c: Catalogue) {
    && (c.current.Some? ==> c.current.value.code in c.faculties && c.faculties[c.current.value.code] == c.current.value.title)
    && (forall d :: d in c.departments ==> d.faculty in c.faculties)
  }

  /** The loop keeps the catalogue consistent, whichever order the patterns are tried in. */
  lemma {:induction false} ScanConsistent(lines: seq<string>, order: Order)
    ensures Consistent(Scan(lines, order))
  {
    if lines != [] {
      ScanConsistent(lines[..|lines| - 1], order);
    }
  }

  /** The title of the last faculty line for `code`, read from the end of the listing. */
  function LastTitle(lines: seq<string>, code: string, order: Order): Option<string> {
    if lines == [] then None
    else
      match ClassifyLine(lines[|lines| - 1], order)
      case FacultyLine(c, t) => if c == code then Some(t) else LastTitle(lines[..|lines| - 1], code, order)
      case _ => LastTitle(lines[..|lines| - 1], code, order)
  }

  /** A code is recorded exactly when some faculty line names it, and a repeated code keeps the last title. */
  lemma {:induction false} ScanLastTitleWins(lines: seq<string>, order: Order, code: string)
    ensures code in Scan(lines, order).faculties <==> LastTitle(lines, code, order).Some?
    ensures code in Scan(lines, order).faculties ==> Scan(lines, order).faculties[code] == LastTitle(lines, code, order).value
  {
    if lines != [] {
      ScanLastTitleWins(lines[..|lines| - 1], order, code);
    }
  }

  /** The faculty named by the last faculty line of `lines`, if there is one. */
  function LastFaculty(lines: seq<string>, order: Order): Option<Faculty> {
    if lines == [] then None
    else
      match ClassifyLine(lines[|lines| - 1], order)
      case FacultyLine(c, t) => Some(Faculty(c, t))
      case _ => LastFaculty(lines[..|lines| - 1], order)
  }

  /** The cursor is the most recent faculty line. */
  lemma {:induction false} ScanCurrentIsLastFaculty(lines: seq<string>, order: Order)
    ensures Scan(lines, order).current == LastFaculty(lines, order)
  {
    if lines != [] {
      ScanCurrentIsLastFaculty(lines[..|lines| - 1], order);
    }
  }

  /**
    One more line: a faculty line moves the cursor and records its code and title; a
    department line read after some faculty line appends exactly one department whose code
    and title are the pattern's third and second groups and whose faculty is the code of the
    most recent faculty line; every other line changes nothing.
  */
  lemma ScanAppend(lines: seq<string>, line: string, order: Order)
    ensures var before := Scan(lines, order);
            var after := Scan(lines + [line], order);
            match ClassifyLine(line, order)
            case FacultyLine(c, t) =>
              after == Catalogue(Some(Faculty(c, t)), before.faculties[c := t], before.departments)
            case DepartmentLine(m) =>
              if LastFaculty(lines, order).Some? then
                after == before.(departments := before.departments +
                                   [Department(m.code, m.title, LastFaculty(lines, order).value.code)])
              else after == before
            case _ => after == before
  {
    assert (lines + [line])[..|lines|] == lines;
    ScanCurrentIsLastFaculty(lines, order);
  }

  /** Each line adds at most one department. */
  lemma {:induction false} DepartmentsBounded(lines: seq<string>, order: Order)
    ensures |Scan(lines, order).departments| <= |lines|
  {
    if lines != [] {
      DepartmentsBounded(lines[..|lines| - 1], order);
    }
  }

  /** No department is recorded before a faculty line has set the cursor. */
  lemma {:induction false} NoDepartmentsBeforeFaculty(lines: seq<string>, order: Order)
    requires forall i :: 0 <= i < |lines| ==> !ClassifyLine(lines[i], order).FacultyLine?
    ensures Scan(lines, order).current.None? && Scan(lines, order).departments == []
  {
    if lines != [] {
      NoDepartmentsBeforeFaculty(lines[..|lines| - 1], order);
    }
  }

  /**
    As written, the faculty pattern shadows the department pattern: on a listing whose lines
    hold no carriage return or other line terminator, no department is ever recorded.
  */
  lemma {:induction false} NoDepartmentsWithoutTerminators(lines: seq<string>)
    requires forall i :: 0 <= i < |lines| ==> NoTerminator(lines[i])
    ensures Scan(lines, FacultyFirst).departments == []
  {
    if lines != [] {
      var line := lines[|lines| - 1];
      NoDepartmentsWithoutTerminators(lines[..|lines| - 1]);
      if MatchDepartment(line).Some? {
        DepartmentLineMatchesFaculty(line);
      }
    }
  }

  /** The sample line is neither blank nor a header. */
  lemma SampleLineNotSkipped(line: string)
    requires line == "FSC Computer Science (CSC)"
    ensures !IsSkipped(line)
  {
    assert !IsSpace(line[0]);
    assert line[0] != AcademicSectionHeader[0] && line[1] != FacultiesHeader[1];
  }

  /** A department line of the listing, as written, becomes a faculty whose title holds the department's code. */
  lemma ShadowedDepartmentExample()
    ensures ClassifyLine("FSC Computer Science (CSC)", FacultyFirst) == FacultyLine("FSC", "Computer Science (CSC)")
    ensures ClassifyLine("FSC Computer Science (CSC)", DepartmentFirst) == DepartmentLine(DepartmentMatch("FSC", "Computer Science", "CSC"))
  {
    SampleLineNotSkipped("FSC Computer Science (CSC)");
    FacultyPatternExample();
    DepartmentPatternExample();
  }

  /**
    With the department pattern tried first, a department-shaped line read after a faculty
    line appends exactly one department: the shape's parenthesised code, the pattern's middle
    group as title (the shape's own title when it starts with a non-space character and one
    white-space character precedes the parenthesis), and the most recent faculty's code.
  */
  lemma DepartmentFirstRecordsDepartment(lines: seq<string>, line: string, facultyCode: string, gap1: string,
                                         title: string, gap2: string, code: string)
    requires DepartmentShape(line, facultyCode, gap1, title, gap2, code) && !IsSkipped(line)
    requires LastFaculty(lines, DepartmentFirst).Some?
    ensures MatchDepartment(line).Some?
    ensures var m := MatchDepartment(line).value;
            && m.facultyCode == facultyCode && m.code == code
            && Scan(lines + [line], DepartmentFirst).departments ==
                 Scan(lines, DepartmentFirst).departments +
                 [Department(code, m.title, LastFaculty(lines, DepartmentFirst).value.code)]
    ensures !IsSpace(title[0]) && |gap2| == 1 ==> MatchDepartment(line).value.title == title
  {
    MatchDepartmentComplete(line, facultyCode, gap1, title, gap2, code);
    if !IsSpace(title[0]) && |gap2| == 1 {
      MatchDepartmentExact(line, facultyCode, gap1, title, gap2, code);
    }
    ScanAppend(lines, line, DepartmentFirst);
  }
}
