# Tires, cars and motorcycles

A model of a small Java program of three classes:

- `Tire` holds an air pressure in PSI and a clean flag. `setClean` overwrites the flag. `checkAirPressure` is a one-shot correction: a pressure strictly below 28 (`MIN_RECOMMENDED_PRESSURE`) becomes exactly 34 (`MAX_RECOMMENDED_PRESSURE`). Any other pressure is left alone, including 28 itself and anything above 34.
- `Car` has a make, a model and an array of four tires. Its constructor fills the array in a loop. Each tire gets a random pressure from `nextInt(24, 27)`, so 24, 25 or 26, and the flag `true`.
- `Motorcycle` has a make, a model, a front tire and a rear tire. Each tire gets a random pressure from `nextInt(24, 34)`, so 24 to 33, and starts clean. `rideThroughMud` makes both tires dirty.

The classes are Dafny classes with the same fields. Their methods update those fields in place under `modifies` clauses. A tire's state is also a value, `TireState`. The two mutators are also values, `TireCall`. `Apply` gives the effect of one call and `Run` the effect of a sequence of calls. `Tire.SetClean` and `Tire.CheckAirPressure` are each specified by `Apply`, so the lemmas about sequences of calls hold for the objects too. The motorcycle is treated the same way, with `MotorcycleState` and `Muddied`.

Java's `int` is the newtype `int32`. The random draws become constructor parameters, and a `requires` bounds each one to its half-open range. `Car`'s array holds nullable `Tire?` elements, as a Java array does. Its constructor proves that every slot is filled with a fresh tire and that no tire appears in two slots.

`Car`'s tires start clean, because `Car.java:18` passes `true`. The comment above that line says "all have low air pressure". Lemma `Cars.DrawsAreUnderInflated` states the low-pressure part of that comment.

## Model

| member | source | states |
|---|---|---|
| `Tires.Corrected` | src/main/java/Tire.java:20-23 | the pressure after a correction is at least 28; it differs from the old pressure exactly when the old pressure was below 28, and then it is 34 |
| `Tires.Apply` | src/main/java/Tire.java:16-23 | one call: only `checkAirPressure` can change the pressure, only `setClean` can change the flag, and `setClean(b)` leaves the flag equal to `b` |
| `Tires.CheckAirPressureIdempotent` | src/main/java/Tire.java:20-23 | a second correction changes nothing, because 34 is not below 28 |
| `Tires.CleanIsLastSetClean` | src/main/java/Tire.java:16-18 | after any sequence of calls, the flag is the argument of the last `setClean`, or the initial flag if there was none |
| `Tires.PressureAfterCalls` | src/main/java/Tire.java:20-23 | after any sequence of calls, the pressure is the corrected initial pressure if some call was `checkAirPressure`, and the initial pressure otherwise |
| `Tires.CorrectedRunIsInflated` | src/main/java/Tire.java:20-23 | after any sequence of calls that includes a correction, the pressure is at least 28 |
| `Tires.Tire.constructor` | src/main/java/Tire.java:7-10 | stores the pressure and the flag as given, with no range check |
| `Tires.Tire.IsClean` | src/main/java/Tire.java:12-14 | returns the current flag; it only reads the tire |
| `Tires.Tire.SetClean` | src/main/java/Tire.java:16-18 | the flag becomes the argument; the pressure is unchanged |
| `Tires.Tire.CheckAirPressure` | src/main/java/Tire.java:20-23 | a pressure below 28 becomes 34; a pressure of 28 or more is unchanged; afterwards the pressure is at least 28; the flag is unchanged |
| `Cars.DrawsAreUnderInflated` | src/main/java/Car.java:17-18 | every draw from `nextInt(24, 27)` (24, 25 or 26) is below 28, so a correction would refill it to 34 |
| `Cars.Car.constructor` | src/main/java/Car.java:10-19 | make and model stored as given; a fresh array of length 4; every slot holds a fresh tire, no two slots hold the same tire, and tire `i` has the `i`-th draw as its pressure and starts clean |
| `Motorcycles.Muddied` | src/main/java/Motorcycle.java:19-22 | after riding through mud both tires are dirty whatever they were before; pressures, make and model are unchanged |
| `Motorcycles.MuddiedIdempotent` | src/main/java/Motorcycle.java:19-22 | riding through mud twice gives the same state as riding through it once |
| `Motorcycles.Motorcycle.constructor` | src/main/java/Motorcycle.java:9-17 | make and model stored as given; two fresh, distinct tires, each with its draw as pressure and clean |
| `Motorcycles.Motorcycle.RideThroughMud` | src/main/java/Motorcycle.java:19-22 | both tires report dirty afterwards; the new state is `Muddied` of the old one, so pressures, make and model are unchanged |

## Left out

- `java.util.Random`: each draw is a parameter bounded to the half-open range that `nextInt(origin, bound)` returns. The generator and the draws' distribution are not modelled.
- The `toString` methods of all three classes (Tire.java:25-31, Car.java:22-27, Motorcycle.java:24-30): they only format output, through Java's string conversion and `Arrays.toString`.
- `MIN_RECOMMENDED_PRESSURE` and `MAX_RECOMMENDED_PRESSURE` are non-final static fields in Java. Here they are the constants 28 and 34. Code elsewhere reassigning them is not modelled.
- Car has no method after its constructor, so nothing in the model changes a car's tires. This is the absence of an operation, so no contract states it.
