/** A golf course: validated metadata, an ordered list of holes, and the
    totals computed from that list (yardage, par, and the OUT / IN / TOT
    columns of the scorecard). */
module Courses {
  import opened Validation
  import opened Text
  import opened Sums
  import Holes

  /** A hole as a course holds it.  The class repeats `Hole` field for
      field, with the same bounds and the same setters, but it is a class
      of its own: a `Hole` is not a `CourseHole`. */
  class CourseHole {
    var holeNumber: int
    var yardage: int
    var par: int
    var handicap: int

    /** Every stored field lies within its bounds. */
    ghost predicate Valid()
      reads this
    {
      Holes.MinHoleNumber <= holeNumber <= Holes.MaxHoleNumber &&
      Holes.MinYardage <= yardage <= Holes.MaxYardage &&
      Holes.MinPar <= par <= Holes.MaxPar &&
      Holes.MinHandicap <= handicap <= Holes.MaxHandicap
    }

    /** The object `__init__` starts from; 0 stands for an attribute not
        assigned yet. */
    constructor Empty()
      ensures holeNumber == 0 && yardage == 0 && par == 0 && handicap == 0
    {
      holeNumber, yardage, par, handicap := 0, 0, 0, 0;
    }

    method SetHoleNumber(value: int) returns (o: Outcome)
      modifies this`holeNumber
      ensures o.Pass? <==> Holes.MinHoleNumber <= value <= Holes.MaxHoleNumber
      ensures o.Pass? ==> holeNumber == value
      ensures o.Fail? ==> o.error == OutOfRange(Field.HoleNumber, value) && holeNumber == old(holeNumber)
      ensures old(Valid()) ==> Valid()
    {
      o := CheckRange(Field.HoleNumber, value, Holes.MinHoleNumber, Holes.MaxHoleNumber);
      if o.Pass? {
        holeNumber := value;
      }
    }

    method SetYardage(value: int) returns (o: Outcome)
      modifies this`yardage
      ensures o.Pass? <==> Holes.MinYardage <= value <= Holes.MaxYardage
      ensures o.Pass? ==> yardage == value
      ensures o.Fail? ==> o.error == OutOfRange(Field.Yardage, value) && yardage == old(yardage)
      ensures old(Valid()) ==> Valid()
    {
      o := CheckRange(Field.Yardage, value, Holes.MinYardage, Holes.MaxYardage);
      if o.Pass? {
        yardage := value;
      }
    }

    method SetPar(value: int) returns (o: Outcome)
      modifies this`par
      ensures o.Pass? <==> Holes.MinPar <= value <= Holes.MaxPar
      ensures o.Pass? ==> par == value
      ensures o.Fail? ==> o.error == OutOfRange(Field.Par, value) && par == old(par)
      ensures old(Valid()) ==> Valid()
    {
      o := CheckRange(Field.Par, value, Holes.MinPar, Holes.MaxPar);
      if o.Pass? {
        par := value;
      }
    }

    method SetHandicap(value: int) returns (o: Outcome)
      modifies this`handicap
      ensures o.Pass? <==> Holes.MinHandicap <= value <= Holes.MaxHandicap
      ensures o.Pass? ==> handicap == value
      ensures o.Fail? ==> o.error == OutOfRange(Field.Handicap, value) && handicap == old(handicap)
      ensures old(Valid()) ==> Valid()
    {
      o := CheckRange(Field.Handicap, value, Holes.MinHandicap, Holes.MaxHandicap);
      if o.Pass? {
        handicap := value;
      }
    }

    /** `CourseHole(hole_number, yardage, par, handicap)`: the four setters
        in order, with the checks of `Hole`.  It succeeds exactly when all
        four values are in range and then holds them; otherwise it reports
        the first setter's error. */
    static method Create(holeNumber: int, yardage: int, par: int, handicap: int)
      returns (r: Result<CourseHole>)
      ensures r.Success? <==> Holes.InitCheck(holeNumber, yardage, par, handicap) == Pass
      ensures r.Failure? ==> Holes.InitCheck(holeNumber, yardage, par, handicap) == Fail(r.error)
      ensures r.Success? ==> fresh(r.value) && r.value.Valid()
      ensures r.Success? ==> r.value.holeNumber == holeNumber && r.value.yardage == yardage &&
                             r.value.par == par && r.value.handicap == handicap
    {
      var hole := new CourseHole.Empty();
      var o := hole.SetHoleNumber(holeNumber);
      if o.Fail? { return Failure(o.error); }
      o := hole.SetYardage(yardage);
      if o.Fail? { return Failure(o.error); }
      o := hole.SetPar(par);
      if o.Fail? { return Failure(o.error); }
      o := hole.SetHandicap(handicap);
      if o.Fail? { return Failure(o.error); }
      return Success(hole);
    }
  }

  const MinNameLength: nat := 3
  const MinTeesLength: nat := 2
  const AllowedSides: seq<string> := ["Front", "Back", "All"]
  const MinRating: real := 60.0
  const MaxRating: real := 85.0
  const MinSlope := 55
  const MaxSlope := 155

  /** The `course_id` check: negative ids are refused, zero is allowed. */
  function CheckCourseId(value: int): Outcome {
    if value < 0 then Fail(OutOfRange(Field.CourseId, value)) else Pass
  }

  /** The `course_name` / `tees` check: the value is judged, and later
      stored, with surrounding whitespace removed. */
  function CheckTrimmed(field: Field, minLength: nat, value: string): Outcome {
    if |Strip(value)| < minLength then Fail(TooShort(field, minLength, value)) else Pass
  }

  /** The `course_side` check: the capitalized form must be an allowed
      side.  The setter stores the raw value, not the capitalized one. */
  function CheckSide(value: string): Outcome {
    if Capitalize(value) in AllowedSides then Pass else Fail(NotAllowed(Field.CourseSide, value))
  }

  function CheckRating(value: real): Outcome {
    if MinRating <= value <= MaxRating then Pass else Fail(RatingOutOfRange(value))
  }

  /** What `Course.__init__`'s setters report, in the source's order
      (`location` and `course_holes` never fail). */
  function InitCheck(courseId: int, courseName: string, tees: string, courseSide: string,
                     rating: real, slope: int): Outcome
  {
    CheckCourseId(courseId)
      .AndThen(CheckTrimmed(Field.CourseName, MinNameLength, courseName))
      .AndThen(CheckTrimmed(Field.Tees, MinTeesLength, tees))
      .AndThen(CheckSide(courseSide))
      .AndThen(CheckRating(rating))
      .AndThen(CheckRange(Field.Slope, slope, MinSlope, MaxSlope))
  }

  /** A trimmed value that passed its check passes it again, and is
      stored unchanged: setting `course_name` or `tees` to the value it
      already holds changes nothing. */
  lemma TrimmedCheckIdempotent(field: Field, minLength: nat, value: string)
    requires CheckTrimmed(field, minLength, value).Pass?
    ensures CheckTrimmed(field, minLength, Strip(value)).Pass?
    ensures Strip(Strip(value)) == Strip(value)
  {
    StripFixedPoint(value);
  }

  /** The side check is case-insensitive: a value passes exactly when,
      lower-cased, it is "front", "back" or "all". */
  lemma SideCheckIsCaseInsensitive(value: string)
    ensures CheckSide(value).Pass? <==> Lower(value) in {"front", "back", "all"}
  {
    assert Capitalize("Front") == "Front" && Lower("Front") == "front";
    assert Capitalize("Back") == "Back" && Lower("Back") == "back";
    assert Capitalize("All") == "All" && Lower("All") == "all";
    CapitalizeMatches(value, "Front");
    CapitalizeMatches(value, "Back");
    CapitalizeMatches(value, "All");
  }

  /** The constructor succeeds exactly when every metadata field is
      acceptable, the side compared case-insensitively. */
  lemma InitCheckAccepts(courseId: int, courseName: string, tees: string, courseSide: string,
                         rating: real, slope: int)
    ensures InitCheck(courseId, courseName, tees, courseSide, rating, slope) == Pass <==>
      courseId >= 0 && |Strip(courseName)| >= MinNameLength && |Strip(tees)| >= MinTeesLength &&
      Lower(courseSide) in {"front", "back", "all"} &&
      MinRating <= rating <= MaxRating && MinSlope <= slope <= MaxSlope
  {
    SideCheckIsCaseInsensitive(courseSide);
  }

  /** `course_hole.yardage for course_hole in holes` */
  function Yardages(holes: seq<CourseHole>): seq<int>
    reads holes
  {
    seq(|holes|, i requires 0 <= i < |holes| reads holes => holes[i].yardage)
  }

  /** `hole.par for hole in holes` */
  function Pars(holes: seq<CourseHole>): seq<int>
    reads holes
  {
    seq(|holes|, i requires 0 <= i < |holes| reads holes => holes[i].par)
  }

  /** Slicing the holes, then reading a field, is reading the field and
      then slicing. */
  lemma ProjectSlice(holes: seq<CourseHole>, lo: nat, hi: nat)
    ensures Yardages(Slice(holes, lo, hi)) == Slice(Yardages(holes), lo, hi)
    ensures Pars(Slice(holes, lo, hi)) == Slice(Pars(holes), lo, hi)
  {
    var s := Slice(holes, lo, hi);
    assert |Yardages(s)| == |Slice(Yardages(holes), lo, hi)|;
    assert |Pars(s)| == |Slice(Pars(holes), lo, hi)|;
  }

  /** For `n` holes that each passed their setters, the course par lies
      between 3n and 6n and the yardage between 50n and 700n. */
  lemma HoleTotalsBounds(holes: seq<CourseHole>)
    ensures (forall h :: h in holes ==> h.Valid()) ==>
      Holes.MinYardage * |holes| <= Sum(Yardages(holes)) <= Holes.MaxYardage * |holes| &&
      Holes.MinPar * |holes| <= Sum(Pars(holes)) <= Holes.MaxPar * |holes|
  {
    if forall h :: h in holes ==> h.Valid() {
      forall i | 0 <= i < |holes|
        ensures holes[i].Valid()
      {
        assert holes[i] in holes;
      }
      SumBounds(Yardages(holes), Holes.MinYardage, Holes.MaxYardage);
      SumBounds(Pars(holes), Holes.MinPar, Holes.MaxPar);
    }
  }

  /** One entry of the course file's `holes` list. */
  datatype HoleRecord = HoleRecord(holeNumber: int, yardage: int, par: int, handicap: int)

  /** The fields `load_from_json` reads from the course file. */
  datatype CourseRecord = CourseRecord(
    courseId: int, courseName: string, tees: string, courseSide: string,
    location: string, rating: real, slope: int, holes: seq<HoleRecord>)

  function RecordCheck(rec: HoleRecord): Outcome {
    Holes.InitCheck(rec.holeNumber, rec.yardage, rec.par, rec.handicap)
  }

  ghost predicate Matches(h: CourseHole, rec: HoleRecord)
    reads h
  {
    h.holeNumber == rec.holeNumber && h.yardage == rec.yardage &&
    h.par == rec.par && h.handicap == rec.handicap
  }

  function RecordYardages(recs: seq<HoleRecord>): seq<int> {
    seq(|recs|, i requires 0 <= i < |recs| => recs[i].yardage)
  }

  function RecordPars(recs: seq<HoleRecord>): seq<int> {
    seq(|recs|, i requires 0 <= i < |recs| => recs[i].par)
  }

  /** The loop of `load_from_json` that turns each hole record into a
      `CourseHole`, in order.  It fails on the first record a setter
      refuses, with that setter's error; otherwise it returns one fresh,
      valid hole per record, holding that record's values. */
  method HolesFromRecords(records: seq<HoleRecord>) returns (r: Result<seq<CourseHole>>)
    ensures r.Success? <==> forall i :: 0 <= i < |records| ==> RecordCheck(records[i]) == Pass
    ensures r.Failure? ==>
      exists i :: 0 <= i < |records| && RecordCheck(records[i]) == Fail(r.error) &&
        forall j :: 0 <= j < i ==> RecordCheck(records[j]) == Pass
    ensures r.Success? ==> |r.value| == |records|
    ensures r.Success? ==>
      forall i :: 0 <= i < |records| ==>
        fresh(r.value[i]) && r.value[i].Valid() && Matches(r.value[i], records[i])
  {
    var holes: seq<CourseHole> := [];
    var i := 0;
    while i < |records|
      invariant 0 <= i <= |records| && |holes| == i
      invariant forall j :: 0 <= j < i ==> RecordCheck(records[j]) == Pass
      invariant forall j :: 0 <= j < i ==>
        fresh(holes[j]) && holes[j].Valid() && Matches(holes[j], records[j])
    {
      var rec := records[i];
      var made := CourseHole.Create(rec.holeNumber, rec.yardage, rec.par, rec.handicap);
      if made.Failure? {
        return Failure(made.error);
      }
      holes := holes + [made.value];
      i := i + 1;
    }
    return Success(holes);
  }

  class Course {
    var courseId: int
    var courseName: string
    var tees: string
    var courseSide: string
    var location: string
    var rating: real
    var slope: int
    var courseHoles: seq<CourseHole>

    /** Every stored field is one its setter accepts, in the form the
        setter stores it, and every hole is a valid hole. */
    ghost predicate Valid()
      reads this, courseHoles
    {
      courseId >= 0 &&
      |courseName| >= MinNameLength && Stripped(courseName) &&
      |tees| >= MinTeesLength && Stripped(tees) &&
      Capitalize(courseSide) in AllowedSides &&
      MinRating <= rating <= MaxRating &&
      MinSlope <= slope <= MaxSlope &&
      forall h :: h in courseHoles ==> h.Valid()
    }

    /** The object `__init__` starts from, before any setter has stored a
        field. */
    constructor Empty()
      ensures courseHoles == []
    {
      courseId, courseName, tees, courseSide, location := 0, "", "", "", "";
      rating, slope, courseHoles := 0.0, 0, [];
    }

    method SetCourseId(value: int) returns (o: Outcome)
      modifies this`courseId
      ensures o.Pass? <==> value >= 0
      ensures o.Pass? ==> courseId == value
      ensures o.Fail? ==> o.error == OutOfRange(Field.CourseId, value) && courseId == old(courseId)
      ensures old(Valid()) ==> Valid()
    {
      o := CheckCourseId(value);
      if o.Pass? {
        courseId := value;
      }
    }

    method SetCourseName(value: string) returns (o: Outcome)
      modifies this`courseName
      ensures o.Pass? <==> |Strip(value)| >= MinNameLength
      ensures o.Pass? ==> courseName == Strip(value)
      ensures o.Fail? ==> o.error == TooShort(Field.CourseName, MinNameLength, value) &&
                          courseName == old(courseName)
      ensures old(Valid()) ==> Valid()
    {
      o := CheckTrimmed(Field.CourseName, MinNameLength, value);
      if o.Pass? {
        courseName := Strip(value);
      }
    }

    method SetTees(value: string) returns (o: Outcome)
      modifies this`tees
      ensures o.Pass? <==> |Strip(value)| >= MinTeesLength
      ensures o.Pass? ==> tees == Strip(value)
      ensures o.Fail? ==> o.error == TooShort(Field.Tees, MinTeesLength, value) && tees == old(tees)
      ensures old(Valid()) ==> Valid()
    {
      o := CheckTrimmed(Field.Tees, MinTeesLength, value);
      if o.Pass? {
        tees := Strip(value);
      }
    }

    method SetCourseSide(value: string) returns (o: Outcome)
      modifies this`courseSide
      ensures o.Pass? <==> Capitalize(value) in AllowedSides
      ensures o.Pass? ==> courseSide == value
      ensures o.Fail? ==> o.error == NotAllowed(Field.CourseSide, value) && courseSide == old(courseSide)
      ensures old(Valid()) ==> Valid()
    {
      o := CheckSide(value);
      if o.Pass? {
        courseSide := value;
      }
    }

    method SetRating(value: real) returns (o: Outcome)
      modifies this`rating
      ensures o.Pass? <==> MinRating <= value <= MaxRating
      ensures o.Pass? ==> rating == value
      ensures o.Fail? ==> o.error == RatingOutOfRange(value) && rating == old(rating)
      ensures old(Valid()) ==> Valid()
    {
      o := CheckRating(value);
      if o.Pass? {
        rating := value;
      }
    }

    method SetSlope(value: int) returns (o: Outcome)
      modifies this`slope
      ensures o.Pass? <==> MinSlope <= value <= MaxSlope
      ensures o.Pass? ==> slope == value
      ensures o.Fail? ==> o.error == OutOfRange(Field.Slope, value) && slope == old(slope)
      ensures old(Valid()) ==> Valid()
    {
      o := CheckRange(Field.Slope, value, MinSlope, MaxSlope);
      if o.Pass? {
        slope := value;
      }
    }

    /** `course_holes` only checks that it is given a list of holes, which
        here is the parameter's type together with each hole's validity. */
    method SetCourseHoles(value: seq<CourseHole>)
      requires forall h :: h in value ==> h.Valid()
      modifies this`courseHoles
      ensures courseHoles == value
      ensures old(Valid()) ==> Valid()
    {
      courseHoles := value;
    }

    /** `yardage`: the sum of the hole yardages, read from the current
        holes on every call; for valid holes it lies in [50n, 700n]. */
    function Yardage(): (total: int)
      reads this, courseHoles
      ensures (forall h :: h in courseHoles ==> h.Valid()) ==>
        Holes.MinYardage * |courseHoles| <= total <= Holes.MaxYardage * |courseHoles|
    {
      HoleTotalsBounds(courseHoles);
      Sum(Yardages(courseHoles))
    }

    /** `par`: the sum of the hole pars; for valid holes it lies in
        [3n, 6n]. */
    function Par(): (total: int)
      reads this, courseHoles
      ensures (forall h :: h in courseHoles ==> h.Valid()) ==>
        Holes.MinPar * |courseHoles| <= total <= Holes.MaxPar * |courseHoles|
    {
      HoleTotalsBounds(courseHoles);
      Sum(Pars(courseHoles))
    }

    /** OUT of the yardage row: the first nine holes. */
    function FrontNineYardage(): int
      reads this, courseHoles
    {
      Sum(Yardages(FrontNine(courseHoles)))
    }

    /** IN of the yardage row: holes ten to eighteen. */
    function BackNineYardage(): int
      reads this, courseHoles
    {
      Sum(Yardages(BackNine(courseHoles)))
    }

    /** OUT of the par row. */
    function FrontNinePar(): int
      reads this, courseHoles
    {
      Sum(Pars(FrontNine(courseHoles)))
    }

    /** IN of the par row. */
    function BackNinePar(): int
      reads this, courseHoles
    {
      Sum(Pars(BackNine(courseHoles)))
    }

    /** On a course of at most eighteen holes the scorecard's OUT and IN
        add up to its TOT, for yardage and for par. */
    lemma OutPlusInIsTotal()
      requires |courseHoles| <= 18
      ensures FrontNineYardage() + BackNineYardage() == Yardage()
      ensures FrontNinePar() + BackNinePar() == Par()
    {
      ProjectSlice(courseHoles, 0, 9);
      ProjectSlice(courseHoles, 9, 18);
      Sums.OutPlusInIsTotal(Yardages(courseHoles));
      Sums.OutPlusInIsTotal(Pars(courseHoles));
    }

    /** `Course(...)`: runs the setters in the source's order.  It fails
        with the first setter's error; otherwise the new course is valid
        and holds the trimmed name and tees and every other argument as
        given (the side in its original spelling).  The first error is
        read off `InitCheck`, which composes the setters' own checks in
        that order; the setters then run and each one accepts. */
    static method Create(courseId: int, courseName: string, tees: string, courseSide: string,
                         location: string, rating: real, slope: int,
                         courseHoles: seq<CourseHole>) returns (r: Result<Course>)
      requires forall h :: h in courseHoles ==> h.Valid()
      ensures r.Success? <==> InitCheck(courseId, courseName, tees, courseSide, rating, slope) == Pass
      ensures r.Failure? ==> InitCheck(courseId, courseName, tees, courseSide, rating, slope) == Fail(r.error)
      ensures r.Success? ==> fresh(r.value) && r.value.Valid()
      ensures r.Success? ==>
        r.value.courseId == courseId && r.value.courseName == Strip(courseName) &&
        r.value.tees == Strip(tees) && r.value.courseSide == courseSide &&
        r.value.location == location && r.value.rating == rating &&
        r.value.slope == slope && r.value.courseHoles == courseHoles
    {
      var check := InitCheck(courseId, courseName, tees, courseSide, rating, slope);
      if check.Fail? {
        return Failure(check.error);
      }
      var c := new Course.Empty();
      var o := c.SetCourseId(courseId);
      assert c.courseId == courseId;
      o := c.SetCourseName(courseName);
      assert c.courseName == Strip(courseName);
      o := c.SetTees(tees);
      assert c.tees == Strip(tees);
      o := c.SetCourseSide(courseSide);
      assert c.courseSide == courseSide;
      c.location := location;
      o := c.SetRating(rating);
      assert c.rating == rating;
      o := c.SetSlope(slope);
      c.SetCourseHoles(courseHoles);
      return Success(c);
    }

    /** `load_from_json` after the file is parsed: build the holes first,
        then the course.  The error is the first failing hole record's,
        or, when every hole passes, the first failing course setter's.
        The course's totals are the sums of the records' yardages and
        pars. */
    static method FromRecord(raw: CourseRecord) returns (r: Result<Course>)
      ensures r.Success? <==>
        (forall i :: 0 <= i < |raw.holes| ==> RecordCheck(raw.holes[i]) == Pass) &&
        InitCheck(raw.courseId, raw.courseName, raw.tees, raw.courseSide, raw.rating, raw.slope) == Pass
      ensures r.Failure? && !(forall i :: 0 <= i < |raw.holes| ==> RecordCheck(raw.holes[i]) == Pass) ==>
        exists i :: 0 <= i < |raw.holes| && RecordCheck(raw.holes[i]) == Fail(r.error) &&
          forall j :: 0 <= j < i ==> RecordCheck(raw.holes[j]) == Pass
      ensures r.Failure? && (forall i :: 0 <= i < |raw.holes| ==> RecordCheck(raw.holes[i]) == Pass) ==>
        InitCheck(raw.courseId, raw.courseName, raw.tees, raw.courseSide, raw.rating, raw.slope) == Fail(r.error)
      ensures r.Success? ==> fresh(r.value) && r.value.Valid()
      ensures r.Success? ==> |r.value.courseHoles| == |raw.holes|
      ensures r.Success? ==>
        (forall i :: 0 <= i < |raw.holes| ==> Matches(r.value.courseHoles[i], raw.holes[i]))
      ensures r.Success? ==>
        r.value.Yardage() == Sum(RecordYardages(raw.holes)) &&
        r.value.Par() == Sum(RecordPars(raw.holes))
    {
      var holes := HolesFromRecords(raw.holes);
      if holes.Failure? {
        return Failure(holes.error);
      }
      r := Create(raw.courseId, raw.courseName, raw.tees, raw.courseSide,
                  raw.location, raw.rating, raw.slope, holes.value);
      if r.Success? {
        assert Yardages(r.value.courseHoles) == RecordYardages(raw.holes);
        assert Pars(r.value.courseHoles) == RecordPars(raw.holes);
      }
    }
  }
}
