/**
 The charge controller of the simulated car: the battery of module Battery together with the
 session bookkeeping and the diagnostic CHARGE/DISCHARGE test that the charge loop drives.
 */
module BatteryControl {
  import opened Battery
  import opened Options

  datatype Phase = Charging | Discharging

  /** `current` and `cutoff` belong to the diagnostic test; there is no `seccPower` before the discovery of DC parameters. */
  datatype Control = Control(
    charge: Charge,
    seccPower: Option<real>,
    diagnostic: bool,
    phase: Phase,
    current: real,
    cutoff: real,
    completed: bool,
    target: real,
    prechargeCycles: nat,
    weldingCycles: nat)

  function Fresh(now: real): Control {
    Control(Charge(20.0, 0.0, now), None, false, Charging, 0.0, 20.0, false, 90.0, 0, 0)
  }

  function PowerLimit(pack: Pack, maxPower: real): real { Min(maxPower, pack.maxPower) }

  function WithLimits(pack: Pack, c: Control, maxPower: real): Control {
    c.(seccPower := Some(PowerLimit(pack, maxPower)), charge := c.charge.(power := PowerLimit(pack, maxPower)))
  }

  /** The operative discharge current: the requested C-rate, the station's test limit, the battery's own limit. */
  function DischargeCurrent(pack: Pack, soc: real, cRate: real, maxTestCurrent: real): real {
    Min(Min(cRate * (pack.capacity / Max(Voltage(pack, soc), 1.0)), maxTestCurrent), pack.maxCurrent)
  }

  function Activated(pack: Pack, c: Control, cRate: real, maxTestCurrent: real, cutoff: real): Control {
    c.(diagnostic := true, phase := Charging, cutoff := cutoff,
       current := DischargeCurrent(pack, c.charge.soc, cRate, maxTestCurrent))
  }

  function DischargePower(pack: Pack, current: real, soc: real): real { -Power(current, Voltage(pack, soc)) }

  /** `is_charging_complete`, which also switches the test from charging to discharging. */
  function Complete(pack: Pack, c: Control): (Control, bool) {
    if c.diagnostic then
      if c.phase.Charging? then
        (if c.charge.soc >= 100.0
         then c.(phase := Discharging, charge := c.charge.(power := DischargePower(pack, c.current, c.charge.soc))) else c, false)
      else if c.charge.soc <= c.cutoff then (c.(completed := true), true)
      else (c, false)
    else (c, c.charge.soc >= c.target || c.completed)
  }

  function Continue(pack: Pack, c: Control, now: real): (Control, bool)
    requires Sane(pack)
  {
    if c.completed then (c, false)
    else
      var (c', complete) := Complete(pack, c);
      if complete then (c', false) else (c'.(charge := Update(pack, c'.charge, c'.charge.power, now)), true)
  }

  /** The scheduled DC request integrates once more and asks for the negotiated power. */
  function AskScheduled(pack: Pack, c: Control, now: real): Control
    requires Sane(pack)
  {
    c.(charge := Update(pack, c.charge, c.charge.power, now))
  }

  /** Bidirectional: while discharging it only refreshes the power for the present voltage. */
  function AskBidirectional(pack: Pack, c: Control, now: real): Control
    requires Sane(pack)
  {
    if c.diagnostic && c.phase.Discharging? then c.(charge := c.charge.(power := -Abs(DischargePower(pack, c.current, c.charge.soc))))
    else AskScheduled(pack, c, now)
  }

  /** Building the display parameters asks whether charging is complete. */
  function Display(pack: Pack, c: Control): Control { Complete(pack, c).0 }

  function Precharged(c: Control, evseVoltage: real, evVoltage: real): (Control, bool) {
    if c.prechargeCycles >= 5 || evseVoltage == evVoltage then (c, true)
    else (c.(prechargeCycles := c.prechargeCycles + 1), false)
  }

  function Welded(c: Control): (Control, bool) {
    if c.weldingCycles >= 3 then (c, true) else (c.(weldingCycles := c.weldingCycles + 1), false)
  }

  type Percent = n: int | 0 <= n <= 100

  /** A price level and the number of levels of the station's price level schedule. */
  datatype PriceLevel = PriceLevel(level: nat, levels: nat)

  /** The hints of a Dynamic schedule exchange that the car looks at. */
  datatype Hints = Hints(targetSoc: Option<Percent>, price: Option<PriceLevel>)

  function Scale(price: PriceLevel): real {
    Max(0.5, 1.0 - 0.5 * (price.level as real - 1.0) / Max(price.levels as real, 1.0))
  }

  /** Level 1 leaves the full power, higher levels scale it down; the station's own limit is not consulted. */
  function DynamicPower(pack: Pack, hints: Hints): real {
    Min(if hints.price.Some? then pack.maxPower * Scale(hints.price.value) else pack.maxPower, pack.maxPower)
  }

  function Rescaled(pack: Pack, c: Control, hints: Hints): Control {
    c.(target := if hints.targetSoc.Some? then hints.targetSoc.value as real else c.target,
       charge := c.charge.(power := DynamicPower(pack, hints)))
  }

  /** Python's round(): to the nearest integer, a half to the even one. */
  function Round(x: real): int {
    var part := x - x.Floor as real;
    if part < 0.5 || (part == 0.5 && x.Floor % 2 == 0) then x.Floor else x.Floor + 1
  }

  /** Python's int(): towards zero. */
  function Truncate(x: real): int { if x >= 0.0 then x.Floor else -((-x).Floor) }

  /** What a bidirectional request asks for; the discharge limits only come with a discharge request. */
  datatype DcTarget = DcTarget(discharge: bool, current: int, voltage: int, maxDischargePower: int, maxDischargeCurrent: int)

  class BatterySimulator {
    const pack: Pack
    var soc: real
    var currentPower: real
    var lastUpdate: real
    var seccMaxPower: Option<real>
    var seccMaxCurrent: real
    var seccMaxVoltage: real
    var diagActive: bool
    var diagPhase: Phase
    var diagCurrent: real
    var diagCutoff: real
    var completed: bool
    var targetSoc: real
    var prechargeCycles: nat
    var weldingCycles: nat

    function Model(): Control
      reads this
    {
      Control(Charge(soc, currentPower, lastUpdate), seccMaxPower, diagActive, diagPhase, diagCurrent, diagCutoff,
              completed, targetSoc, prechargeCycles, weldingCycles)
    }

    constructor (now: real)
      ensures pack == Lab && Model() == Fresh(now)
      ensures seccMaxCurrent == pack.maxCurrent && seccMaxVoltage == pack.maxVoltage
    {
      pack := Lab;
      soc, currentPower, lastUpdate := 20.0, 0.0, now;
      seccMaxPower, seccMaxCurrent, seccMaxVoltage := None, Lab.maxCurrent, Lab.maxVoltage;
      diagActive, diagPhase, diagCurrent, diagCutoff := false, Charging, 0.0, 20.0;
      completed, targetSoc, prechargeCycles, weldingCycles := false, 90.0, 0, 0;
    }

    method UpdateBatteryState(power: real, now: real)
      requires Sane(pack)
      modifies this`soc, this`currentPower, this`lastUpdate
      ensures Model() == old(Model()).(charge := Update(pack, old(Model()).charge, power, now))
    {
      var elapsed := now - lastUpdate;
      lastUpdate := now;
      currentPower := power;
      if elapsed < MinStep {
        return;
      }
      var energyWh := Energy(power, elapsed) / 3600.0;
      var deltaSoc := energyWh / pack.capacity * 100.0;
      soc := Max(0.0, Min(100.0, soc + deltaSoc));
    }

    method UpdateSeccLimits(maxCurrent: real, maxVoltage: real, maxPower: real)
      modifies this`seccMaxPower, this`seccMaxCurrent, this`seccMaxVoltage, this`currentPower
      ensures Model() == WithLimits(pack, old(Model()), maxPower)
      ensures seccMaxCurrent == Min(maxCurrent, pack.maxCurrent) && seccMaxVoltage == Min(maxVoltage, pack.maxVoltage)
    {
      seccMaxCurrent := Min(maxCurrent, pack.maxCurrent);
      seccMaxVoltage := Min(maxVoltage, pack.maxVoltage);
      seccMaxPower := Some(Min(maxPower, pack.maxPower));
      currentPower := seccMaxPower.value;
    }

    /** The profile of a Dynamic session: no profile while the car is not ready. */
    method ProcessDynamicSeParams(hints: Hints, isReady: bool) returns (power: Option<real>)
      modifies this`targetSoc, this`currentPower
      ensures Model() == if isReady then Rescaled(pack, old(Model()), hints) else old(Model())
      ensures power == if isReady then Some(currentPower) else None
    {
      if !isReady {
        return None;
      }
      if hints.targetSoc.Some? {
        targetSoc := hints.targetSoc.value as real;
      }
      var stationPower := pack.maxPower;
      if hints.price.Some? {
        var levels := Max(hints.price.value.levels as real, 1.0);
        var scale := Max(0.5, 1.0 - 0.5 * (hints.price.value.level as real - 1.0) / levels);
        stationPower := pack.maxPower * scale;
      }
      currentPower := Min(stationPower, pack.maxPower);
      return Some(currentPower);
    }

    method ActivateDiagnostic(cRate: real, maxTestCurrent: real, cutoff: real)
      modifies this`diagActive, this`diagPhase, this`diagCurrent, this`diagCutoff
      ensures Model() == Activated(pack, old(Model()), cRate, maxTestCurrent, cutoff)
    {
      diagActive, diagPhase := true, Charging;
      var capacityAh := pack.capacity / Max(Voltage(pack, soc), 1.0);
      var requested := cRate * capacityAh;
      diagCurrent := Min(Min(requested, maxTestCurrent), pack.maxCurrent);
      diagCutoff := cutoff;
    }

    method IsChargingComplete() returns (complete: bool)
      modifies this`diagPhase, this`currentPower, this`completed
      ensures (Model(), complete) == Complete(pack, old(Model()))
    {
      if diagActive {
        if diagPhase == Charging {
          if soc >= 100.0 {
            diagPhase := Discharging;
            currentPower := DischargePower(pack, diagCurrent, soc);
          }
          return false;
        } else {
          if soc <= diagCutoff {
            completed := true;
            return true;
          }
          return false;
        }
      }
      return soc >= targetSoc || completed;
    }

    method ContinueCharging(now: real) returns (goOn: bool)
      requires Sane(pack)
      modifies this`soc, this`currentPower, this`lastUpdate, this`diagPhase, this`completed
      ensures (Model(), goOn) == Continue(pack, old(Model()), now)
    {
      if completed {
        return false;
      }
      var complete := IsChargingComplete();
      if complete {
        return false;
      }
      UpdateBatteryState(currentPower, now);
      return true;
    }

    /** Without discovered limits there is no power to negotiate. */
    method GetScheduledDcParams(now: real) returns (current: int, voltage: int)
      requires Sane(pack) && seccMaxPower.Some?
      modifies this`soc, this`currentPower, this`lastUpdate
      ensures Model() == AskScheduled(pack, old(Model()), now)
      ensures voltage == Round(Voltage(pack, soc))
      ensures current == Round(Min(currentPower, seccMaxPower.value) / Max(Voltage(pack, soc), 1.0))
    {
      UpdateBatteryState(currentPower, now);
      var present := Voltage(pack, soc);
      var negotiated := Min(currentPower, seccMaxPower.value);
      current, voltage := Round(negotiated / Max(present, 1.0)), Round(present);
    }

    /** Returns the discharge request while the test discharges, else the scheduled request. */
    method GetBptScheduledDcParams(now: real) returns (target: DcTarget)
      requires Sane(pack) && seccMaxPower.Some?
      modifies this`soc, this`currentPower, this`lastUpdate
      ensures Model() == AskBidirectional(pack, old(Model()), now)
      ensures target.discharge == old(diagActive && diagPhase == Discharging)
      ensures target.discharge ==>
        && target.current == Truncate(-diagCurrent) && target.voltage == Truncate(Voltage(pack, soc))
        && target.maxDischargePower == Truncate(Abs(DischargePower(pack, diagCurrent, soc)))
        && target.maxDischargeCurrent == Truncate(diagCurrent)
      ensures !target.discharge ==>
        && target.voltage == Round(Voltage(pack, soc))
        && target.current == Round(Min(currentPower, seccMaxPower.value) / Max(Voltage(pack, soc), 1.0))
    {
      if diagActive && diagPhase == Discharging {
        var present := Voltage(pack, soc);
        var power := Abs(DischargePower(pack, diagCurrent, soc));
        currentPower := -power;
        target := DcTarget(true, Truncate(-diagCurrent), Truncate(present), Truncate(power), Truncate(diagCurrent));
      } else {
        var current, voltage := GetScheduledDcParams(now);
        target := DcTarget(false, current, voltage, 0, 0);
      }
    }

    method GetDisplayParams() returns (presentSoc: int, target: int, complete: bool)
      modifies this`diagPhase, this`currentPower, this`completed
      ensures Model() == Display(pack, old(Model())) && complete == Complete(pack, old(Model())).1
      ensures presentSoc == Round(soc) && target == Truncate(targetSoc)
    {
      presentSoc, target := Round(soc), Truncate(targetSoc);
      complete := IsChargingComplete();
    }

    method IsPrecharged(evseVoltage: real, evVoltage: real) returns (precharged: bool)
      modifies this`prechargeCycles
      ensures (Model(), precharged) == Precharged(old(Model()), evseVoltage, evVoltage)
    {
      if prechargeCycles >= 5 || evseVoltage == evVoltage {
        return true;
      }
      prechargeCycles := prechargeCycles + 1;
      return false;
    }

    method WeldingDetectionHasFinished() returns (finished: bool)
      modifies this`weldingCycles
      ensures (Model(), finished) == Welded(old(Model()))
    {
      if weldingCycles >= 3 {
        return true;
      }
      weldingCycles := weldingCycles + 1;
      return false;
    }
  }

  // Power limits over every sequence of controller calls in a Scheduled DC session.

  datatype Operation = ResponseProcessed(now: real) | RequestBuilt(bidirectional: bool, now: real) | DisplayBuilt

  function Apply(pack: Pack, c: Control, op: Operation): Control
    requires Sane(pack)
  {
    match op
    case ResponseProcessed(now) => Continue(pack, c, now).0
    case RequestBuilt(bidirectional, now) => if bidirectional then AskBidirectional(pack, c, now) else AskScheduled(pack, c, now)
    case DisplayBuilt => Display(pack, c)
  }

  function Session(pack: Pack, c: Control, ops: seq<Operation>): Control
    requires Sane(pack)
  {
    if ops == [] then c else Apply(pack, Session(pack, c, ops[..|ops| - 1]), ops[|ops| - 1])
  }

  predicate WithinLimits(pack: Pack, c: Control, limit: real, current: real)
    requires Sane(pack)
  {
    && c.current == current && c.seccPower == Some(limit) && c.charge.power <= limit && 0.0 <= c.charge.soc <= 100.0
    && (c.charge.power < 0.0 ==> c.diagnostic && c.phase.Discharging? && -c.charge.power <= Power(current, pack.maxVoltage))
  }

  lemma PowerIsMonotone(current: real, v: real, w: real)
    requires current >= 0.0 && 0.0 <= v <= w
    ensures 0.0 <= Power(current, v) <= Power(current, w)
  {
  }

  lemma DischargePowerBounds(pack: Pack, current: real, soc: real)
    requires Sane(pack) && 0.0 <= soc <= 100.0 && current >= 0.0
    ensures 0.0 <= Power(current, pack.minVoltage) <= -DischargePower(pack, current, soc) <= Power(current, pack.maxVoltage)
  {
    VoltageInRange(pack, soc);
    PowerIsMonotone(current, pack.minVoltage, Voltage(pack, soc));
    PowerIsMonotone(current, Voltage(pack, soc), pack.maxVoltage);
  }

  lemma OperationKeepsLimits(pack: Pack, c: Control, op: Operation, limit: real, current: real)
    requires Sane(pack) && limit >= 0.0 && current >= 0.0 && WithinLimits(pack, c, limit, current)
    ensures WithinLimits(pack, Apply(pack, c, op), limit, current)
  {
    DischargePowerBounds(pack, current, c.charge.soc);
  }

  /**
   From the discovery of DC parameters on, in every Scheduled session, the power that is
   integrated never exceeds the smaller of the station's and the car's limit; negative power
   belongs to the discharge phase of the test and stays within the test's current.
   */
  lemma {:induction false} PowerStaysWithinLimits(pack: Pack, c: Control, maxPower: real, ops: seq<Operation>)
    requires Sane(pack) && 0.0 <= c.charge.soc <= 100.0 && maxPower >= 0.0 && c.current >= 0.0
    ensures WithinLimits(pack, Session(pack, WithLimits(pack, c, maxPower), ops), Min(maxPower, pack.maxPower), c.current)
  {
    if ops != [] {
      var before := ops[..|ops| - 1];
      PowerStaysWithinLimits(pack, c, maxPower, before);
      OperationKeepsLimits(pack, Session(pack, WithLimits(pack, c, maxPower), before), ops[|ops| - 1], Min(maxPower, pack.maxPower), c.current);
    }
  }

  /** A session without the test never takes power out of the battery. */
  lemma {:induction false} OrdinaryPowerIsNonnegative(pack: Pack, c: Control, maxPower: real, ops: seq<Operation>)
    requires Sane(pack) && 0.0 <= c.charge.soc <= 100.0 && maxPower >= 0.0 && c.current >= 0.0 && !c.diagnostic
    ensures var c' := Session(pack, WithLimits(pack, c, maxPower), ops);
      !c'.diagnostic && 0.0 <= c'.charge.power <= Min(maxPower, pack.maxPower) && c.charge.soc <= c'.charge.soc <= 100.0
  {
    if ops != [] {
      var before := ops[..|ops| - 1];
      OrdinaryPowerIsNonnegative(pack, c, maxPower, before);
      OrdinaryOperation(pack, Session(pack, WithLimits(pack, c, maxPower), before), ops[|ops| - 1]);
    }
  }

  lemma OrdinaryOperation(pack: Pack, c: Control, op: Operation)
    requires Sane(pack) && !c.diagnostic && 0.0 <= c.charge.soc <= 100.0 && c.charge.power >= 0.0
    ensures var c' := Apply(pack, c, op);
      !c'.diagnostic && c'.charge.power == c.charge.power && c.charge.soc <= c'.charge.soc <= 100.0
  {
    if !op.DisplayBuilt? && op.now - c.charge.last >= MinStep {
      ProductSign(c.charge.power, op.now - c.charge.last);
      GainSign(pack, Energy(c.charge.power, op.now - c.charge.last));
    }
  }

  /** With the test activated its current is within the requested C-rate, the station's test limit and the battery's limit. */
  lemma {:induction false} TestPowerStaysWithinLimits(pack: Pack, c: Control, maxPower: real, cRate: real, maxTestCurrent: real,
                                   cutoff: real, ops: seq<Operation>)
    requires Sane(pack) && 0.0 <= c.charge.soc <= 100.0 && maxPower >= 0.0 && cRate >= 0.0 && maxTestCurrent >= 0.0
    ensures var current := DischargeCurrent(pack, c.charge.soc, cRate, maxTestCurrent);
      && WithinLimits(pack, Session(pack, WithLimits(pack, Activated(pack, c, cRate, maxTestCurrent, cutoff), maxPower), ops),
                      Min(maxPower, pack.maxPower), current)
      && 0.0 <= current <= maxTestCurrent && current <= pack.maxCurrent
      && current <= cRate * (pack.capacity / Max(Voltage(pack, c.charge.soc), 1.0))
  {
    CurrentIsNonnegative(pack, c.charge.soc, cRate);
    PowerStaysWithinLimits(pack, Activated(pack, c, cRate, maxTestCurrent, cutoff), maxPower, ops);
  }

  lemma CurrentIsNonnegative(pack: Pack, soc: real, cRate: real)
    requires Sane(pack) && cRate >= 0.0
    ensures cRate * (pack.capacity / Max(Voltage(pack, soc), 1.0)) >= 0.0
  {
    assert pack.capacity / Max(Voltage(pack, soc), 1.0) >= 0.0;
  }

  /** The test only clamps the current: its power respects the battery's power limit at every charge exactly when it does at the maximum voltage. */
  lemma DischargeWithinPowerLimit(pack: Pack, current: real)
    requires Sane(pack) && current >= 0.0
    ensures Power(current, pack.maxVoltage) <= pack.maxPower <==>
      forall soc :: 0.0 <= soc <= 100.0 ==> -DischargePower(pack, current, soc) <= pack.maxPower
  {
    forall soc | 0.0 <= soc <= 100.0 ensures -DischargePower(pack, current, soc) <= Power(current, pack.maxVoltage) {
      DischargePowerBounds(pack, current, soc);
    }
    assert Voltage(pack, 100.0) == pack.maxVoltage;
    assert -DischargePower(pack, current, 100.0) == Power(current, pack.maxVoltage);
  }

  /** The discharge request asks for the operative current cut to whole amperes, never for more. */
  lemma RequestedCurrent(current: real)
    requires current >= 0.0
    ensures -current <= Truncate(-current) as real <= 0.0
    ensures Truncate(-current) as real < -current + 1.0
    ensures Truncate(-current) == -Truncate(current)
  {
  }

  lemma RoundIsNearest(x: real, other: int)
    ensures Abs(Round(x) as real - x) <= 0.5
    ensures Abs(Round(x) as real - x) <= Abs(other as real - x)
    ensures Abs(Round(x) as real - x) == 0.5 ==> Round(x) % 2 == 0
  {
    var down := x.Floor;
    assert 0.0 <= x - down as real < 1.0;
    if other <= down {
      assert other as real <= down as real;
    } else {
      assert other as real >= down as real + 1.0;
    }
  }

  lemma PowerWithin(current: real, most: real, voltage: real)
    requires -most <= current <= most && voltage >= 0.0
    ensures -Power(most, voltage) <= Power(current, voltage) <= Power(most, voltage)
  {
    assert (most - current) * voltage >= 0.0 && (most + current) * voltage >= 0.0;
  }

  /** The whole amperes of a charge request miss the negotiated power by at most half an ampere. */
  lemma RequestedPower(power: real, voltage: real)
    requires voltage >= 1.0
    ensures Abs(Power(Round(power / voltage) as real, voltage) - power) <= Power(0.5, voltage)
  {
    var exact := power / voltage;
    RoundIsNearest(exact, 0);
    PowerWithin(Round(exact) as real - exact, 0.5, voltage);
    assert exact * voltage == power;
    assert Power(Round(exact) as real, voltage) - power == Power(Round(exact) as real - exact, voltage);
  }

  /** In Dynamic mode the power is between half and all of the car's own limit, and all of it exactly up to price level 1. */
  lemma DynamicPowerBounds(pack: Pack, hints: Hints)
    requires Sane(pack)
    ensures 0.5 * pack.maxPower <= DynamicPower(pack, hints) <= pack.maxPower
    ensures DynamicPower(pack, hints) == pack.maxPower <==> hints.price.None? || hints.price.value.level <= 1
  {
    if hints.price.Some? {
      var price := hints.price.value;
      var over := (price.level as real - 1.0) / Max(price.levels as real, 1.0);
      assert over <= 0.0 <==> price.level <= 1;
      assert 1.0 - 0.5 * over == 1.0 - 0.5 * (price.level as real - 1.0) / Max(price.levels as real, 1.0);
      ScaledPower(pack.maxPower, Scale(price));
    }
  }

  /**
   The price levels share out half of the car's own limit: level 1 of n leaves all of it, each
   level above takes the 2n-th part, and from level n + 1 on half of it is left.
   */
  lemma DynamicPowerLaw(pack: Pack, price: PriceLevel, target: Option<Percent>)
    requires Sane(pack) && price.levels >= 1
    ensures var power, n := DynamicPower(pack, Hints(target, Some(price))), price.levels as real;
      && (price.level <= 1 ==> power == pack.maxPower)
      && (1 <= price.level <= price.levels + 1 ==> 2.0 * n * (pack.maxPower - power) == (price.level as real - 1.0) * pack.maxPower)
      && (price.level > price.levels ==> 2.0 * power == pack.maxPower)
  {
    var level, n, most := price.level as real, price.levels as real, pack.maxPower;
    var over := (level - 1.0) / n;
    AgainstOne(level - 1.0, n);
    HalfQuotient(level - 1.0, n);
    assert price.level <= price.levels + 1 ==> level - 1.0 <= n;
    assert price.level > price.levels ==> level - 1.0 >= n;
    assert Scale(price) == Max(0.5, 1.0 - 0.5 * over);
    ScaledPower(most, Scale(price));
    if price.level > price.levels + 1 {
      assert Scale(price) == 0.5;
    } else if price.level <= 1 {
      assert over <= 0.0;
    } else {
      assert Scale(price) == 1.0 - 0.5 * over;
      Shared(most, over, n);
      assert (over * n) * most == (level - 1.0) * most;
    }
  }

  lemma HalfQuotient(a: real, b: real)
    requires b > 0.0
    ensures (0.5 * a) / b == 0.5 * (a / b)
  {
    var half := (0.5 * a) / b;
    assert half * b == 0.5 * a && (0.5 * (a / b)) * b == 0.5 * a;
    assert (half - 0.5 * (a / b)) * b == 0.0;
  }

  lemma Shared(power: real, over: real, n: real)
    ensures 2.0 * n * (power - power * (1.0 - 0.5 * over)) == (over * n) * power
  {
    assert power * (1.0 - 0.5 * over) == power - 0.5 * (power * over);
    assert n * (power * over) == (over * n) * power;
  }

  lemma AgainstOne(a: real, b: real)
    requires b > 0.0
    ensures (a / b) * b == a
    ensures a >= b ==> a / b >= 1.0
    ensures a <= b ==> a / b <= 1.0
  {
    var quotient := a / b;
    if quotient < 1.0 {
      assert (1.0 - quotient) * b > 0.0;
    } else {
      assert (quotient - 1.0) * b >= 0.0;
    }
  }

  /** A station without price levels leaves all the power; a single level counts when it gives none. */
  lemma DynamicPowerWithoutPrice(pack: Pack, target: Option<Percent>, level: nat)
    requires Sane(pack)
    ensures DynamicPower(pack, Hints(target, None)) == pack.maxPower
    ensures DynamicPower(pack, Hints(target, Some(PriceLevel(level, 0)))) == DynamicPower(pack, Hints(target, Some(PriceLevel(level, 1))))
  {
  }

  lemma ScaledPower(power: real, scale: real)
    requires power > 0.0 && scale >= 0.5
    ensures 0.5 * power <= power * scale
    ensures power * scale < power <==> scale < 1.0
  {
  }

  /** The precharge test, asked n times with the same voltages. */
  function PrechargedAfter(c: Control, evseVoltage: real, evVoltage: real, n: nat): Control {
    if n == 0 then c else Precharged(PrechargedAfter(c, evseVoltage, evVoltage, n - 1), evseVoltage, evVoltage).0
  }

  /**
   With constant voltages a precharge test that holds keeps holding, so the car never takes
   back the end of the precharge, and it holds from the sixth time at the latest.
   */
  lemma {:induction false} PrechargeStays(c: Control, evseVoltage: real, evVoltage: real, n: nat)
    ensures Precharged(c, evseVoltage, evVoltage).1 ==>
      Precharged(PrechargedAfter(c, evseVoltage, evVoltage, n), evseVoltage, evVoltage).1
    ensures n >= 5 ==> Precharged(PrechargedAfter(c, evseVoltage, evVoltage, n), evseVoltage, evVoltage).1
    ensures !Precharged(PrechargedAfter(c, evseVoltage, evVoltage, n), evseVoltage, evVoltage).1 ==>
      PrechargedAfter(c, evseVoltage, evVoltage, n).prechargeCycles == c.prechargeCycles + n
  {
    if n > 0 {
      PrechargeStays(c, evseVoltage, evVoltage, n - 1);
    }
  }

  /** The test can fail after it has held only if a voltage changed before five failures were counted. */
  lemma PrechargeLost(c: Control, evseVoltage: real, evVoltage: real, evseVoltage': real, evVoltage': real)
    requires Precharged(c, evseVoltage, evVoltage).1
    ensures !Precharged(Precharged(c, evseVoltage, evVoltage).0, evseVoltage', evVoltage').1 <==>
      c.prechargeCycles < 5 && evseVoltage' != evVoltage'
  {
  }
}
