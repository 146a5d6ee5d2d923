/** How one hole was played: strokes and, when the round was tracked in
    detail, putts, the drive result and green-in-regulation. */
module ScoreHoles {
  import opened Validation
  import opened Text

  const MinHoleNumber := 1
  const MaxHoleNumber := 18
  const MinStrokes := 1
  const MaxStrokes := 15
  const MinPutts := 0
  const MaxPutts := 10
  /** The accepted drive results, in the upper-case form they are stored in. */
  const DriveResults: seq<string> := ["LEFT", "FAIRWAY", "RIGHT", "PAR3"]

  /** Python's `all(flags)`. */
  predicate All(flags: seq<bool>) {
    forall i :: 0 <= i < |flags| ==> flags[i]
  }

  /** The `strokes` check: the range first, then the comparison with the
      putts the object holds.  `puttsAttribute` is what reading
      `self.putts` finds: `None` when the attribute was never assigned
      (Python raises AttributeError), otherwise the putts held, if any. */
  function CheckStrokes(value: int, puttsAttribute: Option<Option<int>>): Outcome {
    CheckRange(Field.Strokes, value, MinStrokes, MaxStrokes)
      .AndThen(match puttsAttribute
               case None => Fail(MissingAttribute(Field.Putts))
               case Some(putts) =>
                 if putts.Some? && value <= putts.value
                 then Fail(StrokesNotAbovePutts(value, putts.value))
                 else Pass)
  }

  /** The `putts` check: `None` always passes; a number is compared with
      the strokes held first, then range-checked.  `if self.strokes`
      skips the comparison only when no strokes are held; this model
      writes that state as 0.  A real `ScoreHole` always holds strokes in
      1..15 by the time its putts are set, and reading unassigned strokes
      in Python raises AttributeError rather than skipping. */
  function CheckPutts(value: Option<int>, strokes: int): Outcome {
    match value
    case None => Pass
    case Some(p) =>
      if strokes != 0 && p >= strokes then Fail(PuttsNotBelowStrokes(p, strokes))
      else CheckRange(Field.Putts, p, MinPutts, MaxPutts)
  }

  /** The `drive` check and the value the setter stores: `None`, or the
      upper-cased input when that is one of the drive results. */
  function NormalizeDrive(value: Option<string>): Result<Option<string>> {
    match value
    case None => Success(None)
    case Some(d) =>
      if Upper(d) in DriveResults then Success(Some(Upper(d))) else Failure(NotAllowed(Field.Drive, d))
  }

  function CheckDrive(value: Option<string>): Outcome {
    match NormalizeDrive(value)
    case Success(_) => Pass
    case Failure(e) => Fail(e)
  }

  /** A stored drive passes the check again and is stored unchanged:
      setting `drive` to the value it holds changes nothing. */
  lemma DriveIdempotent(value: Option<string>)
    requires NormalizeDrive(value).Success?
    ensures NormalizeDrive(NormalizeDrive(value).value) == NormalizeDrive(value)
  {
    if value.Some? {
      UpperIdempotent(value.value);
    }
  }

  /** What `ScoreHole.__init__`'s setters report, in the source's order,
      with `putts` read as absent while the `strokes` setter runs (the
      corrected constructor; `gir` never fails). */
  function InitCheck(holeNumber: int, strokes: int, putts: Option<int>, drive: Option<string>): Outcome {
    CheckRange(Field.HoleNumber, holeNumber, MinHoleNumber, MaxHoleNumber)
      .AndThen(CheckStrokes(strokes, Some(None)))
      .AndThen(CheckPutts(putts, strokes))
      .AndThen(CheckDrive(drive))
  }

  /** The constructor as written: the same setters in the same order,
      except that the `strokes` setter reads `self.putts` before the
      `putts` setter has assigned that attribute. */
  function InitCheckAsWritten(holeNumber: int, strokes: int, putts: Option<int>, drive: Option<string>): Outcome {
    CheckRange(Field.HoleNumber, holeNumber, MinHoleNumber, MaxHoleNumber)
      .AndThen(CheckStrokes(strokes, None))
      .AndThen(CheckPutts(putts, strokes))
      .AndThen(CheckDrive(drive))
  }

  /** As written, no `ScoreHole` can be constructed: every input raises,
      and every input the corrected constructor accepts raises
      AttributeError. */
  lemma InitAsWrittenAlwaysRaises(holeNumber: int, strokes: int, putts: Option<int>, drive: Option<string>)
    ensures InitCheckAsWritten(holeNumber, strokes, putts, drive).Fail?
    ensures InitCheck(holeNumber, strokes, putts, drive) == Pass ==>
      InitCheckAsWritten(holeNumber, strokes, putts, drive) == Fail(MissingAttribute(Field.Putts))
  {
  }

  /** `ScoreHole(1, 4)` shows it: accepted by the corrected constructor,
      AttributeError as written. */
  lemma InitAsWrittenCounterexample()
    ensures InitCheck(1, 4, None, None) == Pass
    ensures InitCheckAsWritten(1, 4, None, None) == Fail(MissingAttribute(Field.Putts))
  {
  }

  /** The corrected constructor accepts exactly the holes whose fields are
      in range, whose putts (if given) are fewer than the strokes, and
      whose drive (if given) is a drive result in any letter case. */
  lemma InitCheckAccepts(holeNumber: int, strokes: int, putts: Option<int>, drive: Option<string>)
    ensures InitCheck(holeNumber, strokes, putts, drive) == Pass <==>
      MinHoleNumber <= holeNumber <= MaxHoleNumber &&
      MinStrokes <= strokes <= MaxStrokes &&
      (putts.Some? ==> MinPutts <= putts.value <= MaxPutts && putts.value < strokes) &&
      (drive.Some? ==> Upper(drive.value) in DriveResults)
  {
  }

  class ScoreHole {
    var holeNumber: int
    var strokes: int
    var putts: Option<int>
    var drive: Option<string>
    var gir: Option<bool>

    /** Every stored field is in range, a stored drive is an upper-case
        drive result, and strokes exceed putts whenever putts are held. */
    ghost predicate Valid()
      reads this
    {
      MinHoleNumber <= holeNumber <= MaxHoleNumber &&
      MinStrokes <= strokes <= MaxStrokes &&
      (putts.Some? ==> MinPutts <= putts.value <= MaxPutts && putts.value < strokes) &&
      (drive.Some? ==> drive.value in DriveResults)
    }

    /** `is_detailed`: putts, drive and gir were all recorded. */
    function IsDetailed(): (detailed: bool)
      reads this
      ensures detailed <==> putts.Some? && drive.Some? && gir.Some?
    {
      var flags := [putts.Some?, drive.Some?, gir.Some?];
      assert flags[0] == putts.Some? && flags[1] == drive.Some? && flags[2] == gir.Some?;
      All(flags)
    }

    /** The object `__init__` starts from.  No field is assigned yet:
        0 stands for the missing `strokes`, and the optional fields read
        as `None` (where Python would raise AttributeError). */
    constructor Empty()
      ensures strokes == 0 && putts == None && drive == None && gir == None
    {
      holeNumber, strokes := 0, 0;
      putts, drive, gir := None, None, None;
    }

    method SetHoleNumber(value: int) returns (o: Outcome)
      modifies this`holeNumber
      ensures o.Pass? <==> MinHoleNumber <= value <= MaxHoleNumber
      ensures o.Pass? ==> holeNumber == value
      ensures o.Fail? ==> o.error == OutOfRange(Field.HoleNumber, value) && holeNumber == old(holeNumber)
      ensures old(Valid()) ==> Valid()
    {
      o := CheckRange(Field.HoleNumber, value, MinHoleNumber, MaxHoleNumber);
      if o.Pass? {
        holeNumber := value;
      }
    }

    /** `strokes`: in range, and above the putts held, if any.  Out of
        range is reported before the comparison with putts. */
    method SetStrokes(value: int) returns (o: Outcome)
      modifies this`strokes
      ensures o.Pass? <==> MinStrokes <= value <= MaxStrokes && (putts.Some? ==> value > putts.value)
      ensures o.Pass? ==> strokes == value
      ensures o.Fail? ==> strokes == old(strokes)
      ensures o.Fail? ==>
        o.error == (if !(MinStrokes <= value <= MaxStrokes) then OutOfRange(Field.Strokes, value)
                    else StrokesNotAbovePutts(value, putts.value))
      ensures old(Valid()) ==> Valid()
    {
      o := CheckStrokes(value, Some(putts));
      if o.Pass? {
        strokes := value;
      }
    }

    /** `putts`: `None` always succeeds and clears the putts; a number
        must be below the strokes held (checked first) and in range. */
    method SetPutts(value: Option<int>) returns (o: Outcome)
      modifies this`putts
      ensures value.None? ==> o.Pass? && putts.None?
      ensures value.Some? ==>
        (o.Pass? <==> MinPutts <= value.value <= MaxPutts && (strokes != 0 ==> value.value < strokes))
      ensures o.Pass? ==> putts == value
      ensures o.Fail? ==> putts == old(putts)
      ensures o.Fail? ==>
        o.error == (if strokes != 0 && value.value >= strokes then PuttsNotBelowStrokes(value.value, strokes)
                    else OutOfRange(Field.Putts, value.value))
      ensures old(Valid()) ==> Valid()
    {
      o := CheckPutts(value, strokes);
      if o.Pass? {
        putts := value;
      }
    }

    /** `drive`: `None`, or a drive result in any letter case, stored
        upper-cased. */
    method SetDrive(value: Option<string>) returns (o: Outcome)
      modifies this`drive
      ensures o.Pass? <==> (value.Some? ==> Upper(value.value) in DriveResults)
      ensures o.Pass? ==> drive == if value.Some? then Some(Upper(value.value)) else None
      ensures o.Fail? ==> o.error == NotAllowed(Field.Drive, value.value) && drive == old(drive)
      ensures old(Valid()) ==> Valid()
    {
      var normalized := NormalizeDrive(value);
      if normalized.Success? {
        drive := normalized.value;
        o := Pass;
      } else {
        o := Fail(normalized.error);
      }
    }

    /** `gir`: `None`, `True` or `False`, stored as given. */
    method SetGir(value: Option<bool>)
      modifies this`gir
      ensures gir == value
      ensures old(Valid()) ==> Valid()
    {
      gir := value;
    }

    /** `ScoreHole(...)`, with `putts` read as absent while the `strokes`
        setter runs.  It fails with the first setter's error; otherwise
        the hole is valid, holds the arguments (the drive upper-cased),
        and is detailed exactly when putts, drive and gir were all given. */
    static method Create(holeNumber: int, strokes: int, putts: Option<int>,
                         drive: Option<string>, gir: Option<bool>) returns (r: Result<ScoreHole>)
      ensures r.Success? <==> InitCheck(holeNumber, strokes, putts, drive) == Pass
      ensures r.Failure? ==> InitCheck(holeNumber, strokes, putts, drive) == Fail(r.error)
      ensures r.Success? ==> fresh(r.value) && r.value.Valid()
      ensures r.Success? ==>
        r.value.holeNumber == holeNumber && r.value.strokes == strokes && r.value.putts == putts &&
        r.value.drive == (if drive.Some? then Some(Upper(drive.value)) else None) &&
        r.value.gir == gir
      ensures r.Success? ==> (r.value.IsDetailed() <==> putts.Some? && drive.Some? && gir.Some?)
    {
      var h := new ScoreHole.Empty();
      var o := h.SetHoleNumber(holeNumber);
      if o.Pass? { o := h.SetStrokes(strokes); }
      if o.Pass? { o := h.SetPutts(putts); }
      if o.Pass? { o := h.SetDrive(drive); }
      if o.Pass? {
        h.SetGir(gir);
        r := Success(h);
      } else {
        r := Failure(o.error);
      }
    }
  }
}
