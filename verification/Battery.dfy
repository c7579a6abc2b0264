/**
 The energy integrator of the simulated battery, on real numbers.

 `Update` is one call of the integrator with the power it is given and the time it reads;
 the run lemmas compare a list of such calls with the integrator that skips nothing.
 */
module Battery {
  datatype Pack = Pack(capacity: real, minVoltage: real, maxVoltage: real, maxCurrent: real, maxPower: real)

  predicate Sane(pack: Pack) {
    pack.capacity > 0.0 && 0.0 < pack.minVoltage <= pack.maxVoltage && pack.maxCurrent > 0.0 && pack.maxPower > 0.0
  }

  /** The values the simulator is built with. */
  const Lab := Pack(500.0, 300.0, 500.0, 60.0, 20000.0)

  const MinStep := 0.01

  function Max(a: real, b: real): real { if a >= b then a else b }

  function Min(a: real, b: real): real { if a <= b then a else b }

  function Abs(a: real): real { if a >= 0.0 then a else -a }

  function Clamp(soc: real): (r: real)
    ensures 0.0 <= r <= 100.0
    ensures 0.0 <= soc <= 100.0 ==> r == soc
  {
    Max(0.0, Min(100.0, soc))
  }

  /** The change of the state of charge, in percent, by an energy in watt-seconds. */
  function Gain(pack: Pack, energy: real): real
    requires Sane(pack)
  {
    energy / 3600.0 / pack.capacity * 100.0
  }

  function Energy(power: real, elapsed: real): real { power * elapsed }

  function Power(current: real, voltage: real): real { current * voltage }

  function Voltage(pack: Pack, soc: real): real {
    pack.minVoltage + (pack.maxVoltage - pack.minVoltage) * (soc / 100.0)
  }

  datatype Charge = Charge(soc: real, power: real, last: real)

  /** A step of less than 10 ms moves the clock but not the state of charge. */
  function Update(pack: Pack, c: Charge, power: real, now: real): Charge
    requires Sane(pack)
  {
    var elapsed := now - c.last;
    Charge(if elapsed < MinStep then c.soc else Clamp(c.soc + Gain(pack, Energy(power, elapsed))), power, now)
  }

  datatype Call = Call(power: real, now: real)

  function Run(pack: Pack, c: Charge, calls: seq<Call>): Charge
    requires Sane(pack)
  {
    if calls == [] then c
    else
      var n := |calls| - 1;
      Update(pack, Run(pack, c, calls[..n]), calls[n].power, calls[n].now)
  }

  /** The same calls through a clamped integrator that skips no step. */
  function Ideal(pack: Pack, c: Charge, calls: seq<Call>): Charge
    requires Sane(pack)
  {
    if calls == [] then c
    else
      var n := |calls| - 1;
      var before := Ideal(pack, c, calls[..n]);
      Charge(Clamp(before.soc + Gain(pack, Energy(calls[n].power, calls[n].now - before.last))), calls[n].power, calls[n].now)
  }

  function LastTime(c: Charge, calls: seq<Call>): real {
    if calls == [] then c.last else calls[|calls| - 1].now
  }

  /** The duration of the last call's step. */
  function LastStep(c: Charge, calls: seq<Call>): real
    requires calls != []
  {
    calls[|calls| - 1].now - LastTime(c, calls[..|calls| - 1])
  }

  predicate Monotone(c: Charge, calls: seq<Call>) {
    calls == [] || (LastStep(c, calls) >= 0.0 && Monotone(c, calls[..|calls| - 1]))
  }

  function Skipped(c: Charge, calls: seq<Call>): nat {
    if calls == [] then 0
    else Skipped(c, calls[..|calls| - 1]) + if LastStep(c, calls) < 0.01 then 1 else 0
  }

  lemma GainOfZero(pack: Pack)
    requires Sane(pack)
    ensures Gain(pack, 0.0) == 0.0
  {
  }

  lemma GainAdds(pack: Pack, a: real, b: real)
    requires Sane(pack)
    ensures Gain(pack, a + b) == Gain(pack, a) + Gain(pack, b)
    ensures Gain(pack, -a) == -Gain(pack, a)
  {
  }

  lemma GainIsMonotone(pack: Pack, a: real, b: real)
    requires Sane(pack) && a <= b
    ensures Gain(pack, a) <= Gain(pack, b)
  {
    GainAdds(pack, a, b - a);
    assert (b - a) / 3600.0 / pack.capacity >= 0.0;
  }

  /** The capacity is the energy, in watt-hours, from empty to full. */
  lemma FullCharge(pack: Pack)
    requires Sane(pack)
    ensures Gain(pack, Energy(pack.capacity, 3600.0)) == 100.0
  {
    assert Energy(pack.capacity, 3600.0) / 3600.0 == pack.capacity;
    assert pack.capacity / pack.capacity == 1.0;
  }

  lemma ClampIsLipschitz(a: real, b: real)
    ensures Abs(Clamp(a) - Clamp(b)) <= Abs(a - b)
  {
  }

  lemma {:induction false} RunTime(pack: Pack, c: Charge, calls: seq<Call>)
    requires Sane(pack)
    ensures Run(pack, c, calls).last == LastTime(c, calls) == Ideal(pack, c, calls).last
  {
  }

  lemma VoltageInRange(pack: Pack, soc: real)
    requires Sane(pack) && 0.0 <= soc <= 100.0
    ensures pack.minVoltage <= Voltage(pack, soc) <= pack.maxVoltage
  {
    var part, span := soc / 100.0, pack.maxVoltage - pack.minVoltage;
    assert 0.0 <= part <= 1.0;
    assert 0.0 <= span * part <= span;
  }

  /** The voltage follows the state of charge in proportion, from the lowest to the highest voltage. */
  lemma VoltageIsLinear(pack: Pack, a: real, b: real)
    ensures Voltage(pack, 0.0) == pack.minVoltage && Voltage(pack, 100.0) == pack.maxVoltage
    ensures 100.0 * (Voltage(pack, a) - Voltage(pack, b)) == (pack.maxVoltage - pack.minVoltage) * (a - b)
  {
  }

  lemma {:induction false} SocStaysInRange(pack: Pack, c: Charge, calls: seq<Call>)
    requires Sane(pack) && 0.0 <= c.soc <= 100.0
    ensures 0.0 <= Run(pack, c, calls).soc <= 100.0
    ensures pack.minVoltage <= Voltage(pack, Run(pack, c, calls).soc) <= pack.maxVoltage
  {
    if calls != [] {
      SocStaysInRange(pack, c, calls[..|calls| - 1]);
    }
    VoltageInRange(pack, Run(pack, c, calls).soc);
  }

  lemma ProductIsMonotone(a: real, b: real, x: real, y: real)
    requires 0.0 <= a <= b && 0.0 <= x <= y
    ensures 0.0 <= Energy(a, x) <= Energy(b, y)
  {
    assert a * x <= b * x;
    assert b * x <= b * y;
  }

  /** The energy of the step, at most the largest power for less than 10 ms. */
  lemma SkippedEnergy(pack: Pack, power: real, step: real, limit: real)
    requires Sane(pack) && 0.0 <= step < MinStep && Abs(power) <= limit
    ensures Abs(Gain(pack, Energy(power, step))) <= Gain(pack, Energy(limit, MinStep))
  {
    ProductIsMonotone(Abs(power), limit, step, MinStep);
    assert Abs(power) == power || Abs(power) == -power;
    assert Energy(power, step) == Energy(Abs(power), step) || Energy(power, step) == -Energy(Abs(power), step) by {
      NegatedEnergy(power, step);
    }
    GainIsMonotone(pack, Energy(power, step), Energy(limit, MinStep));
    GainIsMonotone(pack, -Energy(power, step), Energy(limit, MinStep));
    GainAdds(pack, Energy(power, step), 0.0);
  }

  lemma NegatedEnergy(power: real, elapsed: real)
    ensures Energy(-power, elapsed) == -Energy(power, elapsed)
  {
  }

  function LastEnergy(c: Charge, calls: seq<Call>): real
    requires calls != []
  {
    Energy(calls[|calls| - 1].power, LastStep(c, calls))
  }

  lemma RunSnoc(pack: Pack, c: Charge, calls: seq<Call>)
    requires Sane(pack) && calls != []
    ensures var before, gain := Run(pack, c, calls[..|calls| - 1]).soc, Gain(pack, LastEnergy(c, calls));
      Run(pack, c, calls).soc == if LastStep(c, calls) < MinStep then before else Clamp(before + gain)
    ensures Ideal(pack, c, calls).soc == Clamp(Ideal(pack, c, calls[..|calls| - 1]).soc + Gain(pack, LastEnergy(c, calls)))
  {
    var before := calls[..|calls| - 1];
    RunTime(pack, c, before);
    assert calls[|calls| - 1].now - Run(pack, c, before).last == LastStep(c, calls);
    assert calls[|calls| - 1].now - Ideal(pack, c, before).last == LastStep(c, calls);
  }

  /** The distance that a number of skipped steps can make. */
  function Allowance(skipped: nat, unit: real): real { skipped as real * unit }

  /** One more skipped step adds at most one unit to the distance. */
  lemma SkipAddsOne(run: real, ideal: real, gain: real, unit: real, skipped: nat)
    requires 0.0 <= run <= 100.0 && Abs(gain) <= unit && Abs(run - ideal) <= Allowance(skipped, unit)
    ensures Abs(run - Clamp(ideal + gain)) <= Allowance(skipped + 1, unit)
  {
    assert Allowance(skipped + 1, unit) == Allowance(skipped, unit) + unit;
    ClampIsLipschitz(run, ideal + gain);
  }

  /**
   After any run of updates the simulated state of charge is within (skipped steps) x 10 ms
   x (largest power) of the clamped integrator that skips nothing.
   */
  lemma {:induction false} IntegratorAccuracy(pack: Pack, c: Charge, calls: seq<Call>, limit: real)
    requires Sane(pack) && 0.0 <= c.soc <= 100.0 && Monotone(c, calls)
    requires forall i :: 0 <= i < |calls| ==> Abs(calls[i].power) <= limit
    ensures Abs(Run(pack, c, calls).soc - Ideal(pack, c, calls).soc) <= Allowance(Skipped(c, calls), Gain(pack, Energy(limit, 0.01)))
  {
    if calls != [] {
      var n := |calls| - 1;
      IntegratorAccuracy(pack, c, calls[..n], limit);
      SocStaysInRange(pack, c, calls[..n]);
      RunSnoc(pack, c, calls);
      var run, ideal := Run(pack, c, calls[..n]).soc, Ideal(pack, c, calls[..n]).soc;
      var gain := Gain(pack, LastEnergy(c, calls));
      if LastStep(c, calls) < MinStep {
        SkippedEnergy(pack, calls[n].power, LastStep(c, calls), limit);
        SkipAddsOne(run, ideal, gain, Gain(pack, Energy(limit, MinStep)), Skipped(c, calls[..n]));
      } else {
        ClampIsLipschitz(run + gain, ideal + gain);
      }
    }
  }

  // Splitting a time span, and conservation of energy.

  predicate NoneSkipped(c: Charge, calls: seq<Call>) {
    calls == [] || (LastStep(c, calls) >= 0.01 && NoneSkipped(c, calls[..|calls| - 1]))
  }

  function TotalEnergy(c: Charge, calls: seq<Call>): real {
    if calls == [] then 0.0
    else TotalEnergy(c, calls[..|calls| - 1]) + LastEnergy(c, calls)
  }

  lemma ClampTwice(soc: real, a: real, b: real)
    requires 0.0 <= soc <= 100.0 && ((a >= 0.0 && b >= 0.0) || (a <= 0.0 && b <= 0.0))
    ensures Clamp(Clamp(soc + a) + b) == Clamp(soc + (a + b))
  {
  }

  lemma ProductSign(power: real, step: real)
    requires step >= 0.0
    ensures power >= 0.0 ==> Energy(power, step) >= 0.0
    ensures power <= 0.0 ==> Energy(power, step) <= 0.0
  {
  }

  predicate Nonnegative(calls: seq<Call>) { forall i :: 0 <= i < |calls| ==> calls[i].power >= 0.0 }

  predicate Nonpositive(calls: seq<Call>) { forall i :: 0 <= i < |calls| ==> calls[i].power <= 0.0 }

  lemma {:induction false} EnergySign(c: Charge, calls: seq<Call>)
    requires NoneSkipped(c, calls)
    ensures Nonnegative(calls) ==> TotalEnergy(c, calls) >= 0.0 && (calls != [] ==> LastEnergy(c, calls) >= 0.0)
    ensures Nonpositive(calls) ==> TotalEnergy(c, calls) <= 0.0 && (calls != [] ==> LastEnergy(c, calls) <= 0.0)
  {
    if calls != [] {
      var n := |calls| - 1;
      EnergySign(c, calls[..n]);
      ProductSign(calls[n].power, LastStep(c, calls));
    }
  }

  lemma GainSign(pack: Pack, energy: real)
    requires Sane(pack)
    ensures energy >= 0.0 ==> Gain(pack, energy) >= 0.0
    ensures energy <= 0.0 ==> Gain(pack, energy) <= 0.0
  {
    GainIsMonotone(pack, Min(0.0, energy), Max(0.0, energy));
  }

  /** While the power keeps its sign, only the total energy counts, however the time is split into steps. */
  lemma {:induction false} SplittingIsHarmless(pack: Pack, c: Charge, calls: seq<Call>)
    requires Sane(pack) && 0.0 <= c.soc <= 100.0 && NoneSkipped(c, calls) && (Nonnegative(calls) || Nonpositive(calls))
    ensures Run(pack, c, calls).soc == Clamp(c.soc + Gain(pack, TotalEnergy(c, calls)))
  {
    if calls == [] {
      GainOfZero(pack);
    } else {
      var n := |calls| - 1;
      var before, last := TotalEnergy(c, calls[..n]), LastEnergy(c, calls);
      SplittingIsHarmless(pack, c, calls[..n]);
      RunSnoc(pack, c, calls);
      EnergySign(c, calls[..n]);
      EnergySign(c, calls);
      GainSign(pack, before);
      GainSign(pack, last);
      GainAdds(pack, before, last);
      ClampTwice(c.soc, Gain(pack, before), Gain(pack, last));
    }
  }

  /** Constant power over a span gives the same state of charge in any number of steps as in one. */
  lemma ConstantPower(pack: Pack, c: Charge, calls: seq<Call>, power: real)
    requires Sane(pack) && 0.0 <= c.soc <= 100.0 && NoneSkipped(c, calls) && calls != []
    requires forall i :: 0 <= i < |calls| ==> calls[i].power == power
    ensures Run(pack, c, calls).soc == Run(pack, c, [Call(power, LastTime(c, calls))]).soc
  {
    SplittingIsHarmless(pack, c, calls);
    ConstantEnergy(c, calls, power);
    SpanAtLeastOneStep(c, calls);
    OneCall(pack, c, power, LastTime(c, calls));
  }

  lemma OneCall(pack: Pack, c: Charge, power: real, now: real)
    requires Sane(pack) && now - c.last >= MinStep
    ensures Run(pack, c, [Call(power, now)]).soc == Clamp(c.soc + Gain(pack, Energy(power, now - c.last)))
  {
    assert [Call(power, now)][..0] == [];
  }

  lemma {:induction false} SpanAtLeastOneStep(c: Charge, calls: seq<Call>)
    requires NoneSkipped(c, calls) && calls != []
    ensures LastTime(c, calls) - c.last >= MinStep
  {
    if |calls| > 1 {
      SpanAtLeastOneStep(c, calls[..|calls| - 1]);
    }
  }

  lemma {:induction false} ConstantEnergy(c: Charge, calls: seq<Call>, power: real)
    requires forall i :: 0 <= i < |calls| ==> calls[i].power == power
    ensures TotalEnergy(c, calls) == Energy(power, LastTime(c, calls) - c.last)
  {
    if calls != [] {
      var n := |calls| - 1;
      ConstantEnergy(c, calls[..n], power);
      var before, step := LastTime(c, calls[..n]) - c.last, LastStep(c, calls);
      assert power * (before + step) == power * before + power * step;
    }
  }

  /** No update of the run is cut off at 0 or 100 percent. */
  predicate Unsaturated(pack: Pack, c: Charge, calls: seq<Call>)
    requires Sane(pack)
  {
    calls == [] ||
    (var n := |calls| - 1;
     && 0.0 <= Run(pack, c, calls[..n]).soc + Gain(pack, LastEnergy(c, calls)) <= 100.0
     && Unsaturated(pack, c, calls[..n]))
  }

  /** Without saturation the change of the state of charge is exactly the energy over the capacity. */
  lemma {:induction false} EnergyIsConserved(pack: Pack, c: Charge, calls: seq<Call>)
    requires Sane(pack) && NoneSkipped(c, calls) && Unsaturated(pack, c, calls)
    ensures Run(pack, c, calls).soc - c.soc == Gain(pack, TotalEnergy(c, calls))
  {
    if calls == [] {
      GainOfZero(pack);
    } else {
      var n := |calls| - 1;
      EnergyIsConserved(pack, c, calls[..n]);
      RunSnoc(pack, c, calls);
      GainAdds(pack, TotalEnergy(c, calls[..n]), LastEnergy(c, calls));
    }
  }

  /** With both signs the order matters: charging past 100 percent and back loses energy. */
  lemma MixedSignsLose()
    ensures var c, calls := Charge(90.0, 0.0, 0.0), [Call(3600.0, 100.0), Call(-3600.0, 200.0)];
      && NoneSkipped(c, calls) && TotalEnergy(c, calls) == 0.0
      && Run(Lab, c, calls).soc == 80.0
  {
    var c, calls := Charge(90.0, 0.0, 0.0), [Call(3600.0, 100.0), Call(-3600.0, 200.0)];
    assert calls[..1] == [Call(3600.0, 100.0)] && calls[..1][..0] == [];
    assert LastStep(c, calls[..1]) == 100.0 && LastStep(c, calls) == 100.0;
    assert Run(Lab, c, calls[..1]).soc == 100.0;
  }
}
