# Golf score tracker — a verified model of its core

The golf score tracker keeps courses and rounds of golf. This project models the
validated entities it is built from:

- **Hole** (`src/hole.py`), and **CourseHole** (`src/course.py:16-113`), a
  separate class with the same fields, bounds and setters. Each has a hole
  number, yardage, par and handicap. Each setter range-checks its value before
  storing it. A course holds `CourseHole`s only.
- **Course** (`src/course.py`). It holds an id, a name, the tees, a side, a
  location, a rating, a slope and an ordered list of course holes. The setters
  work as follows:
  - the name and tees are stored stripped of surrounding whitespace;
  - the side is checked case-insensitively but stored as given.

  The course's yardage and par are computed as sums over the holes. The
  scorecard's OUT, IN and TOT columns come from the Python slices `[:9]` and
  `[9:18]`. `load_from_json` builds the holes first and then the course.
- **ScoreHole** (`src/score_hole.py`). It records how one hole was played:
  - the hole number and the strokes, always;
  - optionally the putts, the drive result and green-in-regulation.

  Strokes must exceed putts, whichever of the two is set last. A hole is
  *detailed* when all three optional fields are present.

Each object whose setters update it in place is a Dafny `class`.

- Every setter is a method that modifies only its own field.
- A setter that can refuse its value returns an `Outcome`: `Pass`, or `Fail`
  carrying the error Python would raise. A rejected value leaves the field
  unchanged. The `gir` and `course_holes` setters never refuse a value of
  their type and return nothing.
- Every setter preserves the class's `Valid()` invariant.

Each constructor is a static `Create` method. It starts from an object with no
attribute stored yet (`Empty`) and runs the setters in the source's order. Its
error is the first failing setter's, and the pure function `InitCheck` composes
the setters' own checks in that order.

- `Hole.Create`, `CourseHole.Create` and `ScoreHole.Create` stop at the first
  setter that refuses its value and return that setter's error.
- `Course.Create` evaluates `InitCheck` first and returns its error before
  building anything. Otherwise it runs the setters, and each one accepts.

The Python string operations the setters use are modelled in `Text`:

- `strip()` removes exactly the characters `str.isspace()` accepts.
- `upper()`, `lower()` and `capitalize()` are modelled as ASCII-only case mappings.

`sum` and clamping slices are modelled in `Sums`.

Modules:

- `validation.dfy`: `Option`, `Outcome`, `Result`, the `Error` values and the range check.
- `text.dfy`: `Text`.
- `sums.dfy`: `Sums`.
- `hole.dfy`: `Holes`.
- `course.dfy`: `Courses`.
- `score_hole.dfy`: `ScoreHoles`.

## Model

| member | source | states |
|---|---|---|
| Holes.Hole.SetHoleNumber | src/hole.py:36-48 | succeeds exactly for 1..18 and stores the value; otherwise reports the out-of-range value and keeps the old number; keeps the hole valid |
| Holes.Hole.SetYardage | src/hole.py:55-67 | succeeds exactly for 50..700 and stores it; otherwise reports the value and changes nothing; keeps the hole valid |
| Holes.Hole.SetPar | src/hole.py:74-86 | succeeds exactly for 3..6 and stores it; otherwise reports the value and changes nothing; keeps the hole valid |
| Holes.Hole.SetHandicap | src/hole.py:93-105 | succeeds exactly for 1..18 and stores it; otherwise reports the value and changes nothing; keeps the hole valid |
| Holes.Hole.Create | src/hole.py:13-29 | a hole is built exactly when all four values are in range, and it then holds them and is valid; otherwise the error is the first failing setter's, in the order number, yardage, par, handicap |
| Courses.CourseHole.SetHoleNumber | src/course.py:44-56 | the course hole's number: succeeds exactly for 1..18 and stores it; otherwise reports the value and keeps the old number; keeps the hole valid |
| Courses.CourseHole.SetYardage | src/course.py:63-75 | succeeds exactly for 50..700 and stores it; otherwise reports the value and changes nothing; keeps the hole valid |
| Courses.CourseHole.SetPar | src/course.py:82-94 | succeeds exactly for 3..6 and stores it; otherwise reports the value and changes nothing; keeps the hole valid |
| Courses.CourseHole.SetHandicap | src/course.py:101-113 | succeeds exactly for 1..18 and stores it; otherwise reports the value and changes nothing; keeps the hole valid |
| Courses.CourseHole.Create | src/course.py:21-37 | a course hole is built exactly when all four values pass the checks a `Hole` uses, and it then holds them and is valid; otherwise the error is the first failing setter's |
| Courses.Course.SetCourseId | src/course.py:167-182 | accepts exactly the non-negative ids (zero included) and stores them; a negative id is reported and the old id kept |
| Courses.Course.SetCourseName | src/course.py:189-206 | accepts a name whose stripped form has at least 3 characters and stores the stripped form; a shorter one is reported with the raw input and changes nothing |
| Courses.Course.SetTees | src/course.py:213-230 | accepts tees whose stripped form has at least 2 characters and stores the stripped form; otherwise reports and changes nothing |
| Courses.Course.SetCourseSide | src/course.py:237-255 | accepts a side whose capitalized form is Front, Back or All and stores the raw value as given; otherwise reports and changes nothing |
| Courses.Course.SetSlope | src/course.py:262-276 | accepts exactly 55..155 and stores it; otherwise reports and changes nothing |
| Courses.Course.SetRating | src/course.py:283-297 | accepts exactly 60.0..85.0 and stores it; otherwise reports and changes nothing |
| Courses.Course.SetCourseHoles | src/course.py:304-319 | stores the given course holes in order, keeps the course valid, and shares the hole objects with the caller |
| Courses.SideCheckIsCaseInsensitive | src/course.py:244-253 | the capitalize-then-compare check accepts a side exactly when its lower-case form is front, back or all |
| Courses.TrimmedCheckIdempotent | src/course.py:196-206 | a name or tees value that passed is stored in a form that passes again and that stripping leaves unchanged |
| Courses.InitCheckAccepts | src/course.py:145-151 | the constructor's checks pass exactly when the id is non-negative, the stripped name and tees are long enough, the side matches case-insensitively, and the rating and slope are in range |
| Courses.Course.Create | src/course.py:120-152 | a course is built exactly when the constructor's checks pass; it is then valid and holds the stripped name and tees, the raw side and every other argument; otherwise the error is the first failing setter's, read off `InitCheck` before the object is built |
| Courses.Course.Yardage | src/course.py:323-325 | the course yardage, the sum over the current holes, lies between 50n and 700n for n valid holes |
| Courses.Course.Par | src/course.py:328-330 | the course par, the sum over the current holes, lies between 3n and 6n for n valid holes |
| Courses.HoleTotalsBounds | src/course.py:323-330 | for any list of n valid holes the yardage sum lies in [50n, 700n] and the par sum in [3n, 6n] |
| Courses.Course.OutPlusInIsTotal | src/course.py:459-474 | on a course of at most 18 holes, OUT (holes[:9]) plus IN (holes[9:18]) equals TOT, for yardage and for par |
| Sums.NinesCoverTotal | src/course.py:432-433 | for any number of holes, the `[:9]` and `[9:18]` slices plus the holes past the eighteenth sum to the whole list |
| Courses.HolesFromRecords | src/course.py:341-355 | the hole-building loop succeeds exactly when every record passes; it then gives one fresh valid hole per record, in order, holding that record's values; otherwise it reports the first failing record's error |
| Courses.Course.FromRecord | src/course.py:334-401 | loading succeeds exactly when every hole record and the course fields pass; the course is then valid, has one hole per record with its values, and its yardage and par are the sums of the records' yardages and pars; on failure the error is the first failing hole record's, or, when every hole passes, the first failing course setter's |
| Text.StripRemovesOnlyWhitespace | src/course.py:197 | `strip()` removes only whitespace: the input is the result with whitespace before and after it |
| Text.StripFixedPoint | src/course.py:197 | `strip()` leaves a string unchanged exactly when it neither starts nor ends with whitespace; stripping twice is stripping once |
| ScoreHoles.ScoreHole.SetHoleNumber | src/score_hole.py:63-75 | succeeds exactly for 1..18 and stores it; otherwise reports and changes nothing |
| ScoreHoles.ScoreHole.SetStrokes | src/score_hole.py:82-99 | succeeds exactly when the strokes are in 1..15 and above the putts held, if any; reports out of range before the comparison with the putts; a rejected value changes nothing; keeps strokes above putts |
| ScoreHoles.ScoreHole.SetPutts | src/score_hole.py:106-128 | None always succeeds and clears the putts; a number succeeds exactly when it is in 0..10 and below the strokes held; the comparison is skipped only when no strokes are held yet, a state a constructed hole never has (Python raises AttributeError there); the comparison with the strokes is reported first; a rejected value changes nothing |
| ScoreHoles.ScoreHole.SetDrive | src/score_hole.py:135-157 | None clears the drive; a string succeeds exactly when its upper-case form is LEFT, FAIRWAY, RIGHT or PAR3, and that upper-case form is stored; otherwise reports and changes nothing |
| ScoreHoles.DriveIdempotent | src/score_hole.py:147-157 | a stored drive passes the check again and is stored unchanged |
| ScoreHoles.ScoreHole.SetGir | src/score_hole.py:164-175 | None, True or False is stored as given and the hole stays valid |
| ScoreHoles.ScoreHole.IsDetailed | src/score_hole.py:45-51 | a hole is detailed exactly when putts, drive and gir are all present |
| ScoreHoles.InitCheckAccepts | src/score_hole.py:39-43 | the corrected constructor accepts exactly the holes whose number and strokes are in range, whose putts (if given) are in range and fewer than the strokes, and whose drive (if given) is a drive result in any letter case |
| ScoreHoles.ScoreHole.Create | src/score_hole.py:15-43 | a hole is built exactly when the corrected constructor's checks pass; it is then valid, holds the arguments with the drive upper-cased, and is detailed exactly when putts, drive and gir were all given |
| ScoreHoles.InitAsWrittenAlwaysRaises | src/score_hole.py:40-41 | as written (the `strokes` setter reading the never-assigned `putts` attribute), the constructor fails for every input, and with a missing-attribute error for every input the corrected one accepts |
| ScoreHoles.InitAsWrittenCounterexample | src/score_hole.py:95 | `ScoreHole(1, 4)`: the corrected constructor accepts it, and as written it fails with the missing `putts` attribute |

## Left out

- `Score` and `ScoreCard` are left out. The shown `src/score.py` holds only imports and a constructor signature with no body (src/score.py:23-26), and the shown `src/scorecard.py` holds only imports, so neither class's behaviour can be read from them.
- `src/__init__.py` holds package metadata only (src/__init__.py:6-8). `src/main.py` is a demo script: it resolves the data paths, loads a course file and a score file, and prints a scorecard (src/main.py:24-40); it is left out as I/O. `__str__` (src/course.py:155-160) only formats a string, and the `display_*` methods only format and print. Both are left out, apart from the OUT/IN/TOT sums, which `Courses.Course.OutPlusInIsTotal` and `Sums.NinesCoverTotal` state.
- `load_from_json` is modelled from the parsed file onward. Opening and parsing the JSON file is I/O and is left out. The parsed file becomes a `CourseRecord`, which has every key, so the model cannot raise the `KeyError` that a missing key produces in the dictionary lookups at src/course.py:346-378.
- The `TypeError` checks and the `int(...)`/`float(...)` conversions are left out. Each type check becomes the parameter's type, so a value of another type cannot be passed: a hole.py `Hole` is not a `CourseHole`, and `Course.Create` does not accept a list containing one. A float argument to an integer setter is not modelled.
- Courses.Course.SetRating: the rating is a Dafny `real`, so floating-point rounding of the stored rating is not modelled.
- Text.Upper: Python's `upper()`, `lower()` and `capitalize()` map case over all of Unicode (and `capitalize()` uses title case for the first character). The model maps only ASCII letters. This is exact for the accepted values (Front, Back, All, LEFT, FAIRWAY, RIGHT, PAR3) except for non-ASCII characters whose Unicode case mapping yields one of those ASCII letters.
- Courses.Course.SetCourseHoles: it requires every hole to be valid. Every constructed `CourseHole` has passed its setters. The hole objects are shared with the caller, so later changes to a hole show in the course's totals. The model captures this through `reads` but proves nothing about such aliasing.
- Courses.Course.SetCourseHoles: Python stores the list object itself (src/course.py:319), and the getter returns it (src/course.py:301). Appending to, removing from or reordering that list later changes the course's holes, `yardage` and `par`. The model keeps the holes as a sequence value, so this list-level aliasing is not captured.
- `course_side` is validated in its capitalized form and stored as given (src/course.py:247-255); the model does the same and adds no normalisation.
- Each of the `strokes` and `putts` setters checks strokes > putts against the other field's current value (src/score_hole.py:95, 121); the model does the same, and nothing rechecks the pair afterwards.
- Courses.Course.Create: `location` has no setter in the source. It is assigned directly, between the side and the rating, as the constructor does.

## Findings

| source | as written | input that shows it | evidently intended | confidence | as-written member | corrected member |
|---|---|---|---|---|---|---|
| src/score_hole.py:40-41 | the constructor sets `strokes` before `putts`. The `strokes` setter reads `self.putts` (line 95), whose backing attribute does not exist yet, so every call whose hole number and strokes are in range raises AttributeError and no `ScoreHole` can be built | `ScoreHole(1, 4)` | `putts` reads as absent until its setter runs, so the hole is built with its putts checked against the strokes | high, not executed | ScoreHoles.InitAsWrittenCounterexample | ScoreHoles.ScoreHole.Create |
