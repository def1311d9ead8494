/**
 * A tire: an air pressure in PSI and a cleanliness flag, with a one-shot
 * pressure correction. The tire's state is also given as a value
 * (TireState), so that what a sequence of calls does to a tire can be stated
 * and proved once, in terms of the values the methods are specified by.
 */
module Tires {

  /** Java's 32-bit `int`. */
  newtype int32 = x: int | -0x8000_0000 <= x < 0x8000_0000

  /** A pressure strictly below this one is corrected by CheckAirPressure. */
  const MinRecommendedPressure: int32 := 28

  /** The pressure a correction sets. */
  const MaxRecommendedPressure: int32 := 34

  datatype Option<T> = None | Some(value: T)

  /** Everything a tire holds. */
  datatype TireState = TireState(airPressure: int32, clean: bool)

  /** The two calls that change a tire. */
  datatype TireCall = SetCleanCall(clean: bool) | CheckAirPressureCall

  /**
   * The pressure a tire holds after CheckAirPressure: a refill to the maximum
   * when below the minimum, otherwise left alone (there is no upper clamp).
   */
  function Corrected(p: int32): (r: int32)
    ensures r >= MinRecommendedPressure
    ensures r != p <==> p < MinRecommendedPressure
    ensures r != p ==> r == MaxRecommendedPressure
  {
    if p < MinRecommendedPressure then MaxRecommendedPressure else p
  }

  /** The state after one call. */
  function Apply(s: TireState, c: TireCall): (t: TireState)
    ensures t.airPressure != s.airPressure ==> c.CheckAirPressureCall?
    ensures t.clean != s.clean ==> c.SetCleanCall?
    ensures c.SetCleanCall? ==> t.clean == c.clean
  {
    match c
    case SetCleanCall(b) => s.(clean := b)
    case CheckAirPressureCall => s.(airPressure := Corrected(s.airPressure))
  }

  /** The state after the calls, made in order, starting from s. */
  function Run(s: TireState, calls: seq<TireCall>): TireState
  {
    if calls == [] then s else Apply(Run(s, calls[..|calls| - 1]), calls[|calls| - 1])
  }

  /** The argument of the last SetClean call among the calls, if there is one. */
  function LastSetClean(calls: seq<TireCall>): Option<bool>
  {
    if calls == [] then None
    else match calls[|calls| - 1]
      case SetCleanCall(b) => Some(b)
      case CheckAirPressureCall => LastSetClean(calls[..|calls| - 1])
  }

  /** The correction changes nothing the second time. */
  lemma CheckAirPressureIdempotent(s: TireState)
    ensures Apply(Apply(s, CheckAirPressureCall), CheckAirPressureCall) == Apply(s, CheckAirPressureCall)
  {
  }

  /** The clean flag is whatever the last SetClean call made it; with no such call, the initial flag. */
  lemma {:induction false} CleanIsLastSetClean(s: TireState, calls: seq<TireCall>)
    ensures Run(s, calls).clean == match LastSetClean(calls) case Some(b) => b case None => s.clean
  {
    if calls != [] {
      CleanIsLastSetClean(s, calls[..|calls| - 1]);
    }
  }

  /**
   * Only the correction changes the pressure, and any number of corrections
   * has the effect of one.
   */
  lemma {:induction false} PressureAfterCalls(s: TireState, calls: seq<TireCall>)
    ensures Run(s, calls).airPressure ==
      if CheckAirPressureCall in calls then Corrected(s.airPressure) else s.airPressure
  {
    if calls != [] {
      var prefix, last := calls[..|calls| - 1], calls[|calls| - 1];
      assert calls == prefix + [last];
      PressureAfterCalls(s, prefix);
    }
  }

  /** After any run that corrects at least once, the pressure is at least the minimum. */
  lemma CorrectedRunIsInflated(s: TireState, calls: seq<TireCall>)
    requires CheckAirPressureCall in calls
    ensures Run(s, calls).airPressure >= MinRecommendedPressure
  {
    PressureAfterCalls(s, calls);
  }

  /** A tire object; the source updates both fields in place. */
  class Tire {
    var airPressure: int32
    var clean: bool

    /** The tire's fields as a value. */
    ghost function State(): TireState
      reads this
    {
      TireState(airPressure, clean)
    }

    /** Stores both arguments as given: no range check on the pressure. */
    constructor (airPressure: int32, clean: bool)
      ensures this.airPressure == airPressure && this.clean == clean
      ensures State() == TireState(airPressure, clean)
    {
      this.airPressure := airPressure;
      this.clean := clean;
    }

    function IsClean(): (r: bool)
      reads this
      ensures r == State().clean
    {
      clean
    }

    method SetClean(clean: bool)
      modifies this`clean
      ensures this.clean == clean
      ensures airPressure == old(airPressure)
      ensures State() == Apply(old(State()), SetCleanCall(clean))
    {
      this.clean := clean;
    }

    method CheckAirPressure()
      modifies this`airPressure
      ensures old(airPressure) < MinRecommendedPressure ==> airPressure == MaxRecommendedPressure
      ensures old(airPressure) >= MinRecommendedPressure ==> airPressure == old(airPressure)
      ensures airPressure >= MinRecommendedPressure
      ensures clean == old(clean)
      ensures State() == Apply(old(State()), CheckAirPressureCall)
    {
      if airPressure < MinRecommendedPressure {
        airPressure := MaxRecommendedPressure;
      }
    }
  }
}
