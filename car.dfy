/**
 * A car: a make, a model and four tires it allocates itself. Each tire's
 * pressure is a random draw from the half-open range [24, 27); the draws are
 * passed in, one per tire, in the order the tires are built.
 */
module Cars {
  import opened Tires

  /** The number of tires a car is built with. */
  const TireCount: nat := 4

  /** Lowest pressure a car tire is drawn with. */
  const TirePressureOrigin: int32 := 24

  /** Bound (exclusive) of the pressure a car tire is drawn with. */
  const TirePressureBound: int32 := 27

  /** Every pressure a car is built with is below the minimum, so a correction would refill it. */
  lemma DrawsAreUnderInflated(draw: int32)
    requires TirePressureOrigin <= draw < TirePressureBound
    ensures draw < MinRecommendedPressure && Corrected(draw) == MaxRecommendedPressure
  {
  }

  class Car {
    var make: string
    var model: string
    var tires: array<Tire?>

    /** Four slots, all filled, no tire in two slots. */
    ghost predicate Valid()
      reads this, tires
    {
      && tires.Length == TireCount
      && (forall i :: 0 <= i < tires.Length ==> tires[i] != null)
      && (forall i, j :: 0 <= i < j < tires.Length ==> tires[i] != tires[j])
    }

    constructor (make: string, model: string, draws: seq<int32>)
      requires |draws| == TireCount
      requires forall i :: 0 <= i < |draws| ==> TirePressureOrigin <= draws[i] < TirePressureBound
      ensures this.make == make && this.model == model
      ensures Valid() && fresh(tires)
      ensures forall i :: 0 <= i < tires.Length ==>
        fresh(tires[i]) && tires[i].State() == TireState(draws[i], true)
    {
      this.make := make;
      this.model := model;
      var slots := new Tire?[TireCount];
      for i := 0 to slots.Length
        invariant forall j :: 0 <= j < i ==>
          slots[j] != null && fresh(slots[j]) && slots[j].State() == TireState(draws[j], true)
        invariant forall j, k :: 0 <= j < k < i ==> slots[j] != slots[k]
      {
        slots[i] := new Tire(draws[i], true);
      }
      tires := slots;
    }
  }
}
