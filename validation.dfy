/** Shared vocabulary of the validating setters.

    In the Python classes a setter either raises (ValueError, TypeError) or
    stores the value.  Here a setter returns `Fail(e)` where the source
    raises and `Pass` where it stores; constructors return a `Result`. */
module Validation {

  datatype Option<+T> = None | Some(value: T)

  /** The validated attributes, named after the Python properties. */
  datatype Field =
    | HoleNumber | Yardage | Par | Handicap                        // Hole, CourseHole
    | CourseId | CourseName | Tees | CourseSide | Rating | Slope   // Course
    | Strokes | Putts | Drive                                       // ScoreHole

  /** The reasons a setter refuses a value. */
  datatype Error =
    | OutOfRange(field: Field, value: int)                 // numeric range check
    | RatingOutOfRange(rating: real)                       // Course.rating range check
    | TooShort(field: Field, minLength: nat, text: string) // trimmed length check
    | NotAllowed(field: Field, text: string)               // value outside a fixed set
    | StrokesNotAbovePutts(strokes: int, putts: int)       // strokes <= current putts
    | PuttsNotBelowStrokes(putts: int, strokes: int)       // putts >= current strokes
    | MissingAttribute(attribute: Field)                   // Python AttributeError

  /** Result of one setter: it stored the value, or it raised. */
  datatype Outcome = Pass | Fail(error: Error) {
    /** Runs `next` only when this step passed: the first failure wins,
        as with setters called one after another in a constructor. */
    function AndThen(next: Outcome): Outcome {
      if Fail? then this else next
    }
  }

  /** Result of a constructor: the new object, or the first error raised. */
  datatype Result<+T> = Success(value: T) | Failure(error: Error)

  /** The inclusive range check shared by every numeric setter. */
  function CheckRange(field: Field, value: int, lo: int, hi: int): Outcome {
    if lo <= value <= hi then Pass else Fail(OutOfRange(field, value))
  }
}
