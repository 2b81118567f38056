# Student record, modelled in Dafny

A `StudentRecord` holds one student's name, student number and degree.
These are fixed when the record is created. It also holds a grade table
from module code to grade. The table starts empty. `enter_grade` inserts
or overwrites one entry, and the table keeps its codes in insertion order,
as a Python dict does. The record computes the mean grade, which fails with
a division by zero on an empty table. It also renders a fixed-layout text
summary: a line of thirty asterisks, the name, `Student Number: …`,
`Degree: …`, `Modules & Grades:`, one line `"  " + code + ": " + grade + " "`
per entry in iteration order, `Average Grade: …`, and a closing line of
thirty asterisks with no newline after it.

Files:

- `text.dfy` (module `Text`) holds the text helpers. It gives the decimal
  text of an integer and proves that the text reads back as the same
  integer. It joins lines with newlines and cuts text at newlines, and
  proves that cutting gives the joined lines back.
- `student_record.dfy` (module `StudentRecords`) holds the record. The
  class `StudentRecord` has the fields `name`, `studentNum`, `degree`,
  `keys` and `grades`. `keys` is the iteration order and `grades` is the
  contents. `Valid()` says the codes in `keys` are distinct and are exactly
  the keys of `grades`. The file also holds the specification functions
  `SumGrades`, `Mean`, `GradeLines`, `SummaryLines` and `SummaryText`, and
  the lemmas about them.

The empty-table failure is the one failure the model keeps. It is an
explicit result: `Failure(DivisionByZero)` from `CalculateGradeAverage` and
from `Render`. This is where the Python
code raises `ZeroDivisionError` at the division.

## Model

| member | source | states |
|---|---|---|
| `StudentRecords.StudentRecord.constructor` | student_record.py:2-7 | name, student number and degree are the arguments; the grade table is empty (no codes, empty map); the table invariant holds |
| `StudentRecords.StudentRecord.EnterGrade` | student_record.py:23-24 | afterwards the code maps to exactly the new grade; every other code keeps its presence and grade; the identity fields are unchanged; an existing code keeps the iteration order unchanged, so it keeps its position and the count; a new code is appended at the end; the table invariant is kept |
| `StudentRecords.StudentRecord.CalculateGradeAverage` | student_record.py:26-33 | fails with DivisionByZero exactly when the table is empty; otherwise returns the sum of all grades divided by the entry count. The loop invariant says the accumulator is the sum over the codes visited so far. The record is not modified |
| `StudentRecords.StudentRecord.Render` | student_record.py:9-21 | fails with DivisionByZero exactly when the table is empty; otherwise returns the summary text with the grade lines in iteration order and the average line showing the mean. The text is built step by step as in the source; the record is not modified |
| `StudentRecords.SumAfterEnterGrade` | student_record.py:23-24 | for grade g entered for code m, with the iteration order updated as a dict does: an overwrite changes the sum by g minus the old grade; a new code adds g to the sum |
| `StudentRecords.SumAfterOverwrite` | student_record.py:24 | overwriting a code listed once replaces its old grade by the new one in the sum |
| `StudentRecords.SumIgnoresOtherCodes` | student_record.py:24 | setting the grade of a code outside the table leaves the sum over the table unchanged |
| `StudentRecords.SumBounds` | student_record.py:30-31 | if every grade lies in [lo, hi], the accumulated total lies in [n*lo, n*hi] |
| `StudentRecords.MeanBounds` | student_record.py:32 | the mean of a non-empty table lies between any lower and upper bound of its grades |
| `StudentRecords.GradeLinesAt` | student_record.py:15-18 | there is one grade line per code, and line i shows the i-th code in iteration order with its grade |
| `StudentRecords.SummaryLinesShape` | student_record.py:10-20 | the summary has entry count + 7 lines: a delimiter, the name, `Student Number: `, `Degree: `, `Modules & Grades:`, the grade lines in order, `Average Grade: ` and a delimiter |
| `StudentRecords.SummaryTextLines` | student_record.py:10-20 | cutting the summary text at its newlines gives exactly its lines back, when no identity field, module code or average text holds a newline |
| `StudentRecords.SummaryTextEnds` | student_record.py:10-20 | the summary starts with thirty asterisks and a newline and ends with thirty asterisks, with no trailing newline |
| `StudentRecords.HeaderTerminated` | student_record.py:10-14 | the first five appends of the rendering produce the five header lines, each followed by a newline |
| `StudentRecords.GradeLinesStep` | student_record.py:15-18 | one pass of the rendering loop appends grade line i and a newline to the text of the first i grade lines |
| `StudentRecords.SummaryTextAsBuilt` | student_record.py:19-20 | the summary text is the header and grade lines, each followed by a newline, then the average line and a newline, then the closing delimiter |
| `Text.IntToStringRoundTrip` | student_record.py:18 | the decimal text of a grade reads back as that grade and holds no newline |
| `Text.NatToString` | student_record.py:18 | the decimal text of a natural number is non-empty and all digits, and starts with '0' only for zero |
| `Text.SplitUnlines` | student_record.py:10-20 | lines joined with newlines, none holding a newline, are cut back into the same lines |
| `Text.UnlinesAsTerminated` | student_record.py:10-20 | appending every line but the last with a newline, then the last line alone, gives the lines joined with newlines |

## Left out

- Text of the average: Python's `str(float)` for the average is not
  modelled. `Render` takes it as a parameter `showAverage: real -> string`
  and applies it to the exact mean.
- CalculateGradeAverage: returns the exact rational mean `sum / n` as a
  `real`, not the IEEE double that Python's `/` produces. Rounding of large
  or non-terminating means is not modelled. Nor is the `OverflowError` that
  Python's true division of two ints raises when the quotient is beyond the
  double range, such as a single grade of `10**400`. The model returns
  `Success` there, and `Render` inherits the same gap through the average.
- Render: Python 3.11 and later raises `ValueError` when converting an int
  of more than 4300 digits to text, which the grade lines at
  student_record.py:18 would do. The model gives the full decimal text of
  every grade and never fails there.
- Dynamic typing: identity fields and module codes are `string` and grades
  are `int`. A non-numeric grade, which in Python fails only later with a
  `TypeError` at the `+=`, cannot be entered. The f-string conversion of
  `student_num` becomes plain concatenation of a string.
- Hashing and equality of Python dict keys are reduced to string equality.
  The dict is modelled as the `keys` sequence plus the `grades` map.
- The failure of `Render` on an empty table is a result value. The model does
  not keep the partly built text that Python discards when the exception
  propagates.
