/**
 * A motorcycle: a make, a model, and a front and a rear tire it allocates
 * itself, each with a pressure drawn from the half-open range [24, 34).
 * Riding through mud makes both tires dirty.
 */
module Motorcycles {
  import opened Tires

  /** Lowest pressure a motorcycle tire is drawn with. */
  const TirePressureOrigin: int32 := 24

  /** Bound (exclusive) of the pressure a motorcycle tire is drawn with. */
  const TirePressureBound: int32 := 34

  /** Everything a motorcycle holds, its tires as values. */
  datatype MotorcycleState = MotorcycleState(make: string, model: string, front: TireState, rear: TireState)

  /** The state after riding through mud: both tires dirty, nothing else touched. */
  function Muddied(m: MotorcycleState): (r: MotorcycleState)
    ensures !r.front.clean && !r.rear.clean
    ensures r.make == m.make && r.model == m.model
    ensures r.front.airPressure == m.front.airPressure && r.rear.airPressure == m.rear.airPressure
  {
    m.(front := Apply(m.front, SetCleanCall(false)), rear := Apply(m.rear, SetCleanCall(false)))
  }

  /** Riding through mud twice leaves the same state as riding through it once. */
  lemma MuddiedIdempotent(m: MotorcycleState)
    ensures Muddied(Muddied(m)) == Muddied(m)
  {
  }

  class Motorcycle {
    var make: string
    var model: string
    var frontTire: Tire
    var rearTire: Tire

    /** The motorcycle's fields, and its tires' fields, as a value. */
    ghost function State(): MotorcycleState
      reads this, frontTire, rearTire
    {
      MotorcycleState(make, model, frontTire.State(), rearTire.State())
    }

    constructor (make: string, model: string, frontDraw: int32, rearDraw: int32)
      requires TirePressureOrigin <= frontDraw < TirePressureBound
      requires TirePressureOrigin <= rearDraw < TirePressureBound
      ensures fresh(frontTire) && fresh(rearTire) && frontTire != rearTire
      ensures State() == MotorcycleState(make, model, TireState(frontDraw, true), TireState(rearDraw, true))
    {
      this.make := make;
      this.model := model;
      frontTire := new Tire(frontDraw, true);
      rearTire := new Tire(rearDraw, true);
    }

    method RideThroughMud()
      modifies frontTire`clean, rearTire`clean
      ensures !frontTire.IsClean() && !rearTire.IsClean()
      ensures State() == Muddied(old(State()))
    {
      frontTire.SetClean(false);
      rearTire.SetClean(false);
    }
  }
}
