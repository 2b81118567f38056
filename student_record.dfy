/**
 * One student's record: identity fields fixed at construction, a grade table
 * from module code to grade that keeps its keys in insertion order, the mean
 * grade and the fixed-layout text summary.
 */
module StudentRecords {
  import opened Text

  /** The one failure the model keeps: the mean of an empty grade table divides by zero. */
  datatype Error = DivisionByZero

  datatype Result<T> = Success(value: T) | Failure(error: Error)

  // ---------------------------------------------------------------------
  // The grade table as values
  // ---------------------------------------------------------------------

  /** Module codes in iteration order, with no repeats. */
  predicate DistinctKeys(keys: seq<string>) {
    forall i, j :: 0 <= i < j < |keys| ==> keys[i] != keys[j]
  }

  /** An insertion-ordered table: `keys` lists exactly the codes of `grades`, each once. */
  predicate TableInvariant(keys: seq<string>, grades: map<string, int>) {
    && DistinctKeys(keys)
    && (forall i :: 0 <= i < |keys| ==> keys[i] in grades)
    && (forall m :: m in grades ==> m in keys)
  }

  /** The sum of the grades of `keys`, taken in order. */
  function SumGrades(keys: seq<string>, grades: map<string, int>): int
    requires forall i :: 0 <= i < |keys| ==> keys[i] in grades
  {
    if keys == [] then 0 else SumGrades(keys[..|keys| - 1], grades) + grades[keys[|keys| - 1]]
  }

  /** The arithmetic mean of the grades of a non-empty table. */
  function Mean(keys: seq<string>, grades: map<string, int>): real
    requires |keys| > 0
    requires forall i :: 0 <= i < |keys| ==> keys[i] in grades
  {
    SumGrades(keys, grades) as real / |keys| as real
  }

  /** Giving a grade to a code outside `keys` does not change their sum. */
  lemma {:induction false} SumIgnoresOtherCodes(keys: seq<string>, grades: map<string, int>, m: string, g: int)
    requires forall i :: 0 <= i < |keys| ==> keys[i] in grades
    requires m !in keys
    ensures SumGrades(keys, grades[m := g]) == SumGrades(keys, grades)
  {
    if keys != [] {
      var init := keys[..|keys| - 1];
      SumIgnoresOtherCodes(init, grades, m, g);
    }
  }

  /** Overwriting the grade of a code listed once in `keys` swaps its old grade for the
      new one in the sum. */
  lemma {:induction false} SumAfterOverwrite(keys: seq<string>, grades: map<string, int>, m: string, g: int)
    requires forall i :: 0 <= i < |keys| ==> keys[i] in grades
    requires DistinctKeys(keys) && m in keys
    ensures SumGrades(keys, grades[m := g]) == SumGrades(keys, grades) - grades[m] + g
  {
    var init := keys[..|keys| - 1];
    var last := keys[|keys| - 1];
    if last == m {
      SumIgnoresOtherCodes(init, grades, m, g);
    } else {
      assert m in init by {
        var j :| 0 <= j < |keys| && keys[j] == m;
        assert j < |keys| - 1 && init[j] == m;
      }
      assert DistinctKeys(init) by {
        forall i, j | 0 <= i < j < |init| ensures init[i] != init[j] {
          assert init[i] == keys[i] && init[j] == keys[j];
        }
      }
      SumAfterOverwrite(init, grades, m, g);
    }
  }

  /** How entering grade `g` for `m` changes the sum of a table: an overwrite replaces
      the old grade, a new code adds `g`. `keys'` is the iteration order afterwards. */
  lemma SumAfterEnterGrade(keys: seq<string>, grades: map<string, int>, m: string, g: int, keys': seq<string>)
    requires TableInvariant(keys, grades)
    requires keys' == if m in grades then keys else keys + [m]
    ensures m in grades ==> SumGrades(keys', grades[m := g]) == SumGrades(keys, grades) - grades[m] + g
    ensures m !in grades ==> SumGrades(keys', grades[m := g]) == SumGrades(keys, grades) + g
  {
    if m in grades {
      SumAfterOverwrite(keys, grades, m, g);
    } else {
      assert keys'[..|keys|] == keys;
      assert m !in keys;
      SumIgnoresOtherCodes(keys, grades, m, g);
    }
  }

  /** The grades of `keys` all lie within [lo, hi], so their sum lies within
      [|keys| * lo, |keys| * hi]. */
  lemma {:induction false} SumBounds(keys: seq<string>, grades: map<string, int>, lo: int, hi: int)
    requires forall i :: 0 <= i < |keys| ==> keys[i] in grades && lo <= grades[keys[i]] <= hi
    ensures |keys| * lo <= SumGrades(keys, grades) <= |keys| * hi
  {
    if keys != [] {
      SumBounds(keys[..|keys| - 1], grades, lo, hi);
    }
  }

  /** The mean lies between the lowest and the highest grade bound. */
  lemma MeanBounds(keys: seq<string>, grades: map<string, int>, lo: int, hi: int)
    requires |keys| > 0
    requires forall i :: 0 <= i < |keys| ==> keys[i] in grades && lo <= grades[keys[i]] <= hi
    ensures lo as real <= Mean(keys, grades) <= hi as real
  {
    SumBounds(keys, grades, lo, hi);
    var n := |keys| as real;
    var total := SumGrades(keys, grades) as real;
    assert n * (lo as real) <= total <= n * (hi as real);
    assert Mean(keys, grades) * n == total;
  }

  // ---------------------------------------------------------------------
  // The text summary as values
  // ---------------------------------------------------------------------

  /** The delimiter line: thirty asterisks. */
  const Delimiter: string := "******************************"

  /** The line shown for one table entry: two spaces of indent and a trailing space. */
  function GradeLine(code: string, grade: int): string {
    "  " + code + ": " + IntToString(grade) + " "
  }

  /** One grade line per key, in the order of `keys`. */
  function GradeLines(keys: seq<string>, grades: map<string, int>): (ls: seq<string>)
    requires forall i :: 0 <= i < |keys| ==> keys[i] in grades
    ensures |ls| == |keys|
  {
    if keys == [] then []
    else GradeLines(keys[..|keys| - 1], grades) + [GradeLine(keys[|keys| - 1], grades[keys[|keys| - 1]])]
  }

  /** The lines before the grade lines. */
  function HeaderLines(name: string, studentNum: string, degree: string): seq<string> {
    [Delimiter, name, "Student Number: " + studentNum, "Degree: " + degree, "Modules & Grades:"]
  }

  /** Every line of the summary, top to bottom; `averageText` is the text of the mean. */
  function SummaryLines(name: string, studentNum: string, degree: string,
                        keys: seq<string>, grades: map<string, int>, averageText: string): seq<string>
    requires forall i :: 0 <= i < |keys| ==> keys[i] in grades
  {
    HeaderLines(name, studentNum, degree) + GradeLines(keys, grades)
      + ["Average Grade: " + averageText, Delimiter]
  }

  /** The summary text: its lines joined by newlines, no newline after the last delimiter. */
  function SummaryText(name: string, studentNum: string, degree: string,
                       keys: seq<string>, grades: map<string, int>, averageText: string): string
    requires forall i :: 0 <= i < |keys| ==> keys[i] in grades
  {
    Unlines(SummaryLines(name, studentNum, degree, keys, grades, averageText))
  }

  /** The header lines, each followed by a newline, spelled out. */
  lemma HeaderTerminated(name: string, studentNum: string, degree: string)
    ensures Terminated(HeaderLines(name, studentNum, degree))
         == Delimiter + "\n" + (name + "\n") + ("Student Number: " + studentNum + "\n")
            + ("Degree: " + degree + "\n") + "Modules & Grades:\n"
  {
    var a, b, c, d, e := Delimiter, name, "Student Number: " + studentNum, "Degree: " + degree, "Modules & Grades:";
    assert [a][..0] == [];
    assert Terminated([a]) == a + "\n";
    assert [a, b][..1] == [a];
    assert Terminated([a, b]) == a + "\n" + b + "\n";
    assert [a, b, c][..2] == [a, b];
    assert Terminated([a, b, c]) == a + "\n" + b + "\n" + c + "\n";
    assert [a, b, c, d][..3] == [a, b, c];
    assert Terminated([a, b, c, d]) == a + "\n" + b + "\n" + c + "\n" + d + "\n";
    assert [a, b, c, d, e][..4] == [a, b, c, d];
    assert Terminated([a, b, c, d, e]) == a + "\n" + b + "\n" + c + "\n" + d + "\n" + e + "\n";
  }

  /** Grade line `i` shows the `i`-th code of the iteration order and its grade. */
  lemma {:induction false} GradeLinesAt(keys: seq<string>, grades: map<string, int>, i: nat)
    requires forall j :: 0 <= j < |keys| ==> keys[j] in grades
    requires i < |keys|
    ensures |GradeLines(keys, grades)| == |keys|
    ensures GradeLines(keys, grades)[i] == GradeLine(keys[i], grades[keys[i]])
  {
    var init := keys[..|keys| - 1];
    if i < |keys| - 1 {
      GradeLinesAt(init, grades, i);
    }
  }

  /** The lines of the summary: two delimiters of thirty asterisks around the identity
      lines, one line per grade in iteration order, and the average line. */
  lemma SummaryLinesShape(name: string, studentNum: string, degree: string,
                          keys: seq<string>, grades: map<string, int>, averageText: string)
    requires forall j :: 0 <= j < |keys| ==> keys[j] in grades
    ensures var ls := SummaryLines(name, studentNum, degree, keys, grades, averageText);
      && |ls| == |keys| + 7
      && ls[0] == Delimiter && ls[|keys| + 6] == Delimiter
      && ls[1] == name
      && ls[2] == "Student Number: " + studentNum
      && ls[3] == "Degree: " + degree
      && ls[4] == "Modules & Grades:"
      && (forall j :: 0 <= j < |keys| ==> ls[5 + j] == GradeLine(keys[j], grades[keys[j]]))
      && ls[|keys| + 5] == "Average Grade: " + averageText
  {
    var ls := SummaryLines(name, studentNum, degree, keys, grades, averageText);
    var gl := GradeLines(keys, grades);
    assert |HeaderLines(name, studentNum, degree)| == 5;
    forall j | 0 <= j < |keys| ensures ls[5 + j] == GradeLine(keys[j], grades[keys[j]]) {
      GradeLinesAt(keys, grades, j);
      assert ls[5 + j] == gl[j];
    }
  }

  /** The summary, cut at its newlines, gives back exactly its lines, provided no
      identity field, module code or average text holds a newline. */
  lemma SummaryTextLines(name: string, studentNum: string, degree: string,
                         keys: seq<string>, grades: map<string, int>, averageText: string)
    requires forall j :: 0 <= j < |keys| ==> keys[j] in grades && NoNewline(keys[j])
    requires NoNewline(name) && NoNewline(studentNum) && NoNewline(degree) && NoNewline(averageText)
    ensures Split(SummaryText(name, studentNum, degree, keys, grades, averageText))
         == SummaryLines(name, studentNum, degree, keys, grades, averageText)
  {
    var header := HeaderLines(name, studentNum, degree);
    var gl := GradeLines(keys, grades);
    var tail := ["Average Grade: " + averageText, Delimiter];
    FixedLinesNoNewline(name, studentNum, degree, averageText);
    GradeLinesNoNewline(keys, grades);
    NoNewlinesAppend(header, gl);
    NoNewlinesAppend(header + gl, tail);
    SplitUnlines(header + gl + tail);
  }

  /** The fixed lines of the summary hold a newline only if the inserted fields do. */
  lemma FixedLinesNoNewline(name: string, studentNum: string, degree: string, averageText: string)
    requires NoNewline(name) && NoNewline(studentNum) && NoNewline(degree) && NoNewline(averageText)
    ensures NoNewlines(HeaderLines(name, studentNum, degree))
    ensures NoNewlines(["Average Grade: " + averageText, Delimiter])
  {
  }

  /** Grade lines hold no newline when no module code does. */
  lemma {:induction false} GradeLinesNoNewline(keys: seq<string>, grades: map<string, int>)
    requires forall j :: 0 <= j < |keys| ==> keys[j] in grades && NoNewline(keys[j])
    ensures NoNewlines(GradeLines(keys, grades))
  {
    if keys != [] {
      var init := keys[..|keys| - 1];
      GradeLinesNoNewline(init, grades);
      IntToStringRoundTrip(grades[keys[|keys| - 1]]);
      NoNewlinesAppend(GradeLines(init, grades), [GradeLine(keys[|keys| - 1], grades[keys[|keys| - 1]])]);
    }
  }

  /** The summary opens with a delimiter line and a newline and closes with a delimiter
      and no trailing newline. */
  lemma SummaryTextEnds(name: string, studentNum: string, degree: string,
                        keys: seq<string>, grades: map<string, int>, averageText: string)
    requires forall j :: 0 <= j < |keys| ==> keys[j] in grades
    ensures var t := SummaryText(name, studentNum, degree, keys, grades, averageText);
      && |t| >= 61
      && t[..31] == Delimiter + "\n"
      && t[|t| - 30..] == Delimiter
  {
    var lines := SummaryLines(name, studentNum, degree, keys, grades, averageText);
    UnlinesEnds(lines);
  }

  /** Appending the text of grade line `i` to `prefix` and the text of the first `i`
      grade lines gives `prefix` and the text of the first `i + 1`. */
  lemma GradeLinesStep(prefix: string, keys: seq<string>, grades: map<string, int>, i: nat)
    requires i < |keys|
    requires forall j :: 0 <= j < |keys| ==> keys[j] in grades
    ensures prefix + Terminated(GradeLines(keys[..i + 1], grades))
         == prefix + Terminated(GradeLines(keys[..i], grades))
            + ("  " + keys[i] + ": " + IntToString(grades[keys[i]]) + " \n")
  {
    assert keys[..i + 1][..i] == keys[..i];
    TerminatedSnoc(prefix, GradeLines(keys[..i], grades), GradeLine(keys[i], grades[keys[i]]));
  }

  /** The summary text is the header and grade lines, each followed by a newline,
      then the average line and a newline, then the closing delimiter. */
  lemma SummaryTextAsBuilt(name: string, studentNum: string, degree: string,
                           keys: seq<string>, grades: map<string, int>, averageText: string)
    requires forall j :: 0 <= j < |keys| ==> keys[j] in grades
    ensures SummaryText(name, studentNum, degree, keys, grades, averageText)
         == Terminated(HeaderLines(name, studentNum, degree)) + Terminated(GradeLines(keys, grades))
            + ("Average Grade: " + averageText + "\n") + Delimiter
  {
    var header := HeaderLines(name, studentNum, degree);
    UnlinesLastTwo(header + GradeLines(keys, grades), "Average Grade: " + averageText, Delimiter);
    TerminatedAppend(header, GradeLines(keys, grades));
  }

  // ---------------------------------------------------------------------
  // The record
  // ---------------------------------------------------------------------

  class StudentRecord {
    var name: string
    var studentNum: string
    var degree: string
    /** The grade table: `keys` is its iteration order, `grades` its contents. */
    var keys: seq<string>
    var grades: map<string, int>

    ghost predicate Valid()
      reads this
    {
      TableInvariant(keys, grades)
    }

    constructor (name: string, studentNum: string, degree: string)
      ensures Valid()
      ensures this.name == name && this.studentNum == studentNum && this.degree == degree
      ensures keys == [] && grades == map[]
    {
      this.name := name;
      this.studentNum := studentNum;
      this.degree := degree;
      keys := [];
      grades := map[];
    }

    /** Insert or overwrite the grade of `moduleCode`. A new code goes to the end of
        the iteration order; an existing one keeps its place. */
    method EnterGrade(moduleCode: string, grade: int)
      requires Valid()
      modifies this
      ensures Valid()
      ensures name == old(name) && studentNum == old(studentNum) && degree == old(degree)
      ensures moduleCode in grades && grades[moduleCode] == grade
      ensures forall m :: m != moduleCode ==> (m in grades <==> m in old(grades))
      ensures forall m :: m != moduleCode && m in old(grades) ==> grades[m] == old(grades)[m]
      ensures moduleCode in old(grades) ==> keys == old(keys)
      ensures moduleCode !in old(grades) ==> keys == old(keys) + [moduleCode]
    {
      if moduleCode !in grades {
        keys := keys + [moduleCode];
      }
      grades := grades[moduleCode := grade];
    }

    /** The mean of the grades, or the division-by-zero failure on an empty table. */
    method CalculateGradeAverage() returns (r: Result<real>)
      requires Valid()
      ensures r.Failure? <==> |keys| == 0
      ensures r.Failure? ==> r.error == DivisionByZero
      ensures r.Success? ==> r.value == Mean(keys, grades)
    {
      var total := 0;
      var n := |keys|;
      var i := 0;
      while i < n
        invariant 0 <= i <= n
        invariant total == SumGrades(keys[..i], grades)
      {
        assert keys[..i + 1][..i] == keys[..i];
        total := total + grades[keys[i]];
        i := i + 1;
      }
      assert keys[..n] == keys;
      if n == 0 {
        return Failure(DivisionByZero);
      }
      r := Success(total as real / n as real);
    }

    /** The text summary of the record. `showAverage` is the text form of a mean.
        Fails like CalculateGradeAverage when the table is empty. */
    method Render(showAverage: real -> string) returns (r: Result<string>)
      requires Valid()
      ensures r.Failure? <==> |keys| == 0
      ensures r.Failure? ==> r.error == DivisionByZero
      ensures r.Success? ==>
        r.value == SummaryText(name, studentNum, degree, keys, grades, showAverage(Mean(keys, grades)))
    {
      var text := Delimiter + "\n";
      text := text + (name + "\n");
      text := text + ("Student Number: " + studentNum + "\n");
      text := text + ("Degree: " + degree + "\n");
      text := text + "Modules & Grades:\n";
      ghost var headerText := Terminated(HeaderLines(name, studentNum, degree));
      HeaderTerminated(name, studentNum, degree);
      assert text == headerText + Terminated(GradeLines(keys[..0], grades)) by {
        assert keys[..0] == [];
      }
      var i := 0;
      while i < |keys|
        invariant 0 <= i <= |keys|
        invariant text == headerText + Terminated(GradeLines(keys[..i], grades))
      {
        var code := keys[i];
        var grade := grades[code];
        GradeLinesStep(headerText, keys, grades, i);
        text := text + ("  " + code + ": " + IntToString(grade) + " \n");
        i := i + 1;
      }
      assert keys[..i] == keys;
      var average := CalculateGradeAverage();
      if average.Failure? {
        return Failure(average.error);
      }
      text := text + ("Average Grade: " + showAverage(average.value) + "\n");
      text := text + Delimiter;
      SummaryTextAsBuilt(name, studentNum, degree, keys, grades, showAverage(average.value));
      r := Success(text);
    }
  }

  /** A client of the record: an empty record has no average. */
  method ExampleEmptyRecord() {
    var ada := new StudentRecord("Ada Lovelace", "S1001", "Computer Science");
    var average := ada.CalculateGradeAverage();
    assert average == Failure(DivisionByZero);
  }

  /** The mean of a two-entry table is half the sum of its two grades. */
  lemma MeanOfTwo(a: string, b: string, grades: map<string, int>)
    requires a in grades && b in grades
    ensures Mean([a, b], grades) == (grades[a] + grades[b]) as real / 2.0
  {
    assert [a, b][..1] == [a] && [a][..0] == [];
    assert SumGrades([a], grades) == grades[a];
    assert SumGrades([a, b], grades) == grades[a] + grades[b];
  }

  /** A client of the record: two modules average to their mean and are kept in entry order. */
  method ExampleTwoModules() {
    var ada := new StudentRecord("Ada Lovelace", "S1001", "Computer Science");
    var first, second := "CS101", "CS102";
    assert first != second by { assert first[4] != second[4]; }
    ada.EnterGrade(first, 85);
    ada.EnterGrade(second, 75);
    var average := ada.CalculateGradeAverage();
    ghost var keys, grades := ada.keys, ada.grades;
    assert keys == [first, second] && grades[first] == 85 && grades[second] == 75;
    MeanOfTwo(first, second, grades);
    assert average == Success(80.0);
  }

  /** A client of the record: a second grade for a code replaces the first. */
  method ExampleOverwrite() {
    var ada := new StudentRecord("Ada Lovelace", "S1001", "Computer Science");
    var code := "CS101";
    ada.EnterGrade(code, 90);
    ada.EnterGrade(code, 60);
    var average := ada.CalculateGradeAverage();
    ghost var keys, grades := ada.keys, ada.grades;
    assert keys == [code] && grades[code] == 60 && keys[..0] == [];
    assert SumGrades(keys, grades) == 60;
    assert |keys| as real == 1.0 && SumGrades(keys, grades) as real == 60.0;
    assert Mean(keys, grades) == 60.0;
    assert average == Success(60.0);
  }
}
