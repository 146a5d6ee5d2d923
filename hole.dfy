/** One hole of a course: number, yardage, par and handicap rating, each
    range-checked by its setter before it is stored. */
module Holes {
  import opened Validation

  const MinHoleNumber := 1
  const MaxHoleNumber := 18
  const MinYardage := 50
  const MaxYardage := 700
  const MinPar := 3
  const MaxPar := 6
  const MinHandicap := 1
  const MaxHandicap := 18

  /** What the constructor's four setters report, run in the source's
      order: the first range check that fails decides the error. */
  function InitCheck(holeNumber: int, yardage: int, par: int, handicap: int): Outcome {
    CheckRange(Field.HoleNumber, holeNumber, MinHoleNumber, MaxHoleNumber)
      .AndThen(CheckRange(Field.Yardage, yardage, MinYardage, MaxYardage))
      .AndThen(CheckRange(Field.Par, par, MinPar, MaxPar))
      .AndThen(CheckRange(Field.Handicap, handicap, MinHandicap, MaxHandicap))
  }

  class Hole {
    var holeNumber: int
    var yardage: int
    var par: int
    var handicap: int

    /** Every stored field lies within its bounds. */
    ghost predicate Valid()
      reads this
    {
      MinHoleNumber <= holeNumber <= MaxHoleNumber &&
      MinYardage <= yardage <= MaxYardage &&
      MinPar <= par <= MaxPar &&
      MinHandicap <= handicap <= MaxHandicap
    }

    /** The object `__init__` starts from, before any setter has stored a
        field; 0 stands for an attribute not assigned yet. */
    constructor Empty()
      ensures holeNumber == 0 && yardage == 0 && par == 0 && handicap == 0
    {
      holeNumber, yardage, par, handicap := 0, 0, 0, 0;
    }

    method SetHoleNumber(value: int) returns (o: Outcome)
      modifies this`holeNumber
      ensures o.Pass? <==> MinHoleNumber <= value <= MaxHoleNumber
      ensures o.Pass? ==> holeNumber == value
      ensures o.Fail? ==> o.error == OutOfRange(Field.HoleNumber, value) && holeNumber == old(holeNumber)
      ensures old(Valid()) ==> Valid()
    {
      o := CheckRange(Field.HoleNumber, value, MinHoleNumber, MaxHoleNumber);
      if o.Pass? {
        holeNumber := value;
      }
    }

    method SetYardage(value: int) returns (o: Outcome)
      modifies this`yardage
      ensures o.Pass? <==> MinYardage <= value <= MaxYardage
      ensures o.Pass? ==> yardage == value
      ensures o.Fail? ==> o.error == OutOfRange(Field.Yardage, value) && yardage == old(yardage)
      ensures old(Valid()) ==> Valid()
    {
      o := CheckRange(Field.Yardage, value, MinYardage, MaxYardage);
      if o.Pass? {
        yardage := value;
      }
    }

    method SetPar(value: int) returns (o: Outcome)
      modifies this`par
      ensures o.Pass? <==> MinPar <= value <= MaxPar
      ensures o.Pass? ==> par == value
      ensures o.Fail? ==> o.error == OutOfRange(Field.Par, value) && par == old(par)
      ensures old(Valid()) ==> Valid()
    {
      o := CheckRange(Field.Par, value, MinPar, MaxPar);
      if o.Pass? {
        par := value;
      }
    }

    method SetHandicap(value: int) returns (o: Outcome)
      modifies this`handicap
      ensures o.Pass? <==> MinHandicap <= value <= MaxHandicap
      ensures o.Pass? ==> handicap == value
      ensures o.Fail? ==> o.error == OutOfRange(Field.Handicap, value) && handicap == old(handicap)
      ensures old(Valid()) ==> Valid()
    {
      o := CheckRange(Field.Handicap, value, MinHandicap, MaxHandicap);
      if o.Pass? {
        handicap := value;
      }
    }

    /** `Hole(hole_number, yardage, par, handicap)`: runs the four setters
        in order.  It succeeds exactly when all four values are in range,
        and then every field holds its argument; otherwise it reports the
        first setter's error and no Hole is returned. */
    static method Create(holeNumber: int, yardage: int, par: int, handicap: int) returns (r: Result<Hole>)
      ensures r.Success? <==>
        MinHoleNumber <= holeNumber <= MaxHoleNumber && MinYardage <= yardage <= MaxYardage &&
        MinPar <= par <= MaxPar && MinHandicap <= handicap <= MaxHandicap
      ensures r.Failure? ==> InitCheck(holeNumber, yardage, par, handicap) == Fail(r.error)
      ensures r.Success? ==> fresh(r.value) && r.value.Valid()
      ensures r.Success? ==> r.value.holeNumber == holeNumber && r.value.yardage == yardage &&
                             r.value.par == par && r.value.handicap == handicap
    {
      var hole := new Hole.Empty();
      var o := hole.SetHoleNumber(holeNumber);
      if o.Fail? { return Failure(o.error); }
      o := hole.SetYardage(yardage);
      if o.Fail? { return Failure(o.error); }
      o := hole.SetPar(par);
      if o.Fail? { return Failure(o.error); }
      o := hole.SetHandicap(handicap);
      if o.Fail? { return Failure(o.error); }
      return Success(hole);
    }
  }
}
