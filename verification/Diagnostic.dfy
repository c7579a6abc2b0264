/**
 The diagnostic test of a DC session: charge to 100 percent, then discharge to the cutoff.
 Only a bidirectional session in Scheduled mode builds discharge requests, which refresh the
 power for the present voltage; every other one integrates on with the power of the switch.
 `path` records phase and state of charge after every request.
 */
module Diagnostic {
  import opened Battery
  import opened BatteryControl

  /** When a charge-loop response is processed and when the next request is built, after the loop delay. */
  datatype Tick = Tick(resumed: real, asked: real)

  datatype Point = Point(phase: Phase, soc: real)

  datatype Test = Test(control: Control, ended: bool, path: seq<Point>)

  function Asked(pack: Pack, bidirectional: bool, c: Control, now: real): Control
    requires Sane(pack)
  {
    Display(pack, if bidirectional then AskBidirectional(pack, c, now) else AskScheduled(pack, c, now))
  }

  function Opening(pack: Pack, bidirectional: bool, c: Control, now: real): Test
    requires Sane(pack)
  {
    var c' := Asked(pack, bidirectional, c, now);
    Test(c', false, [Point(c'.phase, c'.charge.soc)])
  }

  function Cycle(pack: Pack, bidirectional: bool, t: Test, tick: Tick): Test
    requires Sane(pack)
  {
    if t.ended then t
    else
      var (c, goOn) := Continue(pack, t.control, tick.resumed);
      if !goOn then t.(control := c, ended := true)
      else
        var c' := Asked(pack, bidirectional, c, tick.asked);
        Test(c', false, t.path + [Point(c'.phase, c'.charge.soc)])
  }

  function Run(pack: Pack, bidirectional: bool, c: Control, now: real, ticks: seq<Tick>): Test
    requires Sane(pack)
  {
    if ticks == [] then Opening(pack, bidirectional, c, now)
    else Cycle(pack, bidirectional, Run(pack, bidirectional, c, now, ticks[..|ticks| - 1]), ticks[|ticks| - 1])
  }

  /** A test about to start its charge loop with positive power, discharge current and a cutoff below 100 percent. */
  predicate Ready(pack: Pack, c: Control) {
    && Sane(pack) && c.diagnostic && c.phase.Charging? && !c.completed
    && 0.0 <= c.charge.soc <= 100.0 && c.charge.power > 0.0 && c.current > 0.0 && 0.0 <= c.cutoff < 100.0
  }

  /** One step of the path: charging never loses, the switch is at 100 percent, discharging never gains or returns. */
  predicate Follows(before: Point, after: Point) {
    if before.phase.Discharging? then after.phase.Discharging? && after.soc <= before.soc
    else before.soc <= after.soc <= 100.0 && (after.phase.Discharging? <==> after.soc == 100.0)
  }

  predicate Shaped(path: seq<Point>) {
    && path != []
    && path[0].soc <= 100.0 && (path[0].phase.Discharging? <==> path[0].soc == 100.0)
    && forall i :: 0 <= i < |path| - 1 ==> Follows(path[i], path[i + 1])
  }

  function Last(path: seq<Point>): Point
    requires path != []
  {
    path[|path| - 1]
  }

  /** The power of the test's discharge at a state of charge. */
  function TestPower(pack: Pack, bidirectional: bool, current: real, soc: real): real {
    DischargePower(pack, current, if bidirectional then soc else 100.0)
  }

  predicate Steady(pack: Pack, bidirectional: bool, c: Control, power: real, current: real, cutoff: real)
    requires Sane(pack)
  {
    && c.diagnostic && c.current == current && c.cutoff == cutoff && 0.0 <= c.charge.soc <= 100.0
    && (c.phase.Charging? ==> c.charge.power == power && c.charge.soc < 100.0 && !c.completed)
    && (c.phase.Discharging? ==> c.charge.power == TestPower(pack, bidirectional, current, c.charge.soc))
    && (c.phase.Discharging? ==> (c.completed <==> c.charge.soc <= cutoff))
  }

  predicate Invariant(pack: Pack, bidirectional: bool, t: Test, power: real, current: real, cutoff: real)
    requires Sane(pack)
  {
    && Shaped(t.path) && (forall i :: 0 <= i < |t.path| ==> t.path[i].soc >= 0.0)
    && Steady(pack, bidirectional, t.control, power, current, cutoff)
    && Last(t.path) == Point(t.control.phase, t.control.charge.soc)
    && (t.ended ==> t.control.completed)
    && (forall i :: 0 <= i < |t.path| - 1 && t.path[i].phase.Discharging? ==> t.path[i].soc > cutoff)
  }

  lemma PowerBounds(pack: Pack, bidirectional: bool, current: real, soc: real)
    requires Sane(pack) && 0.0 <= soc <= 100.0 && current > 0.0
    ensures Power(current, pack.minVoltage) > 0.0
    ensures Power(current, pack.minVoltage) <= -TestPower(pack, bidirectional, current, soc) <= Power(current, pack.maxVoltage)
  {
    DischargePowerBounds(pack, current, if bidirectional then soc else 100.0);
  }

  /** An update with nonnegative power never lowers the state of charge, one with nonpositive power never raises it. */
  lemma UpdateSign(pack: Pack, c: Charge, power: real, now: real)
    requires Sane(pack) && 0.0 <= c.soc <= 100.0
    ensures power >= 0.0 ==> c.soc <= Update(pack, c, power, now).soc <= 100.0
    ensures power <= 0.0 ==> 0.0 <= Update(pack, c, power, now).soc <= c.soc
  {
    var elapsed := now - c.last;
    if elapsed >= MinStep {
      ProductSign(power, elapsed);
      GainSign(pack, Energy(power, elapsed));
    }
  }

  lemma OpeningKeepsInvariant(pack: Pack, bidirectional: bool, c: Control, now: real)
    requires Ready(pack, c)
    ensures Invariant(pack, bidirectional, Opening(pack, bidirectional, c, now), c.charge.power, c.current, c.cutoff)
  {
    UpdateSign(pack, c.charge, c.charge.power, now);
  }

  lemma ChargingCycle(pack: Pack, bidirectional: bool, t: Test, tick: Tick, power: real, current: real, cutoff: real)
    requires Sane(pack) && power > 0.0 && cutoff < 100.0 && t.control.phase.Charging?
    requires Invariant(pack, bidirectional, t, power, current, cutoff)
    ensures var t' := Cycle(pack, bidirectional, t, tick);
      && Invariant(pack, bidirectional, t', power, current, cutoff) && !t'.ended
      && |t'.path| == |t.path| + 1 && t'.path[..|t.path|] == t.path
      && t'.control.charge.(power := power) == Update(pack, Update(pack, t.control.charge, power, tick.resumed), power, tick.asked)
  {
    var first := Update(pack, t.control.charge, power, tick.resumed);
    UpdateSign(pack, t.control.charge, power, tick.resumed);
    UpdateSign(pack, first, power, tick.asked);
    PathGrows(t.path, Last(Cycle(pack, bidirectional, t, tick).path), cutoff);
  }

  /** A discharge request does not integrate, any other request does. */
  lemma RequestIntegrates(pack: Pack, bidirectional: bool, c: Control, now: real)
    requires Sane(pack) && c.diagnostic && c.phase.Discharging?
    ensures Asked(pack, bidirectional, c, now).charge.soc ==
      if bidirectional then c.charge.soc else Update(pack, c.charge, c.charge.power, now).soc
  {
  }

  /** The charge after one discharging cycle: a bidirectional session integrates when the response is processed only. */
  function Drained(pack: Pack, bidirectional: bool, c: Charge, tick: Tick): Charge
    requires Sane(pack)
  {
    var first := Update(pack, c, c.power, tick.resumed);
    if bidirectional then first else Update(pack, first, c.power, tick.asked)
  }

  lemma DrainedSign(pack: Pack, bidirectional: bool, c: Charge, tick: Tick)
    requires Sane(pack) && 0.0 <= c.soc <= 100.0 && c.power <= 0.0
    ensures 0.0 <= Drained(pack, bidirectional, c, tick).soc <= c.soc
  {
    UpdateSign(pack, c, c.power, tick.resumed);
    UpdateSign(pack, Update(pack, c, c.power, tick.resumed), c.power, tick.asked);
  }

  lemma DischargingCycle(pack: Pack, bidirectional: bool, t: Test, tick: Tick, power: real, current: real, cutoff: real)
    requires Sane(pack) && current > 0.0 && t.control.phase.Discharging? && !t.ended
    requires Invariant(pack, bidirectional, t, power, current, cutoff)
    ensures var t' := Cycle(pack, bidirectional, t, tick);
      && Invariant(pack, bidirectional, t', power, current, cutoff)
      && (t'.ended <==> t.control.charge.soc <= cutoff)
      && (t'.ended ==> t'.path == t.path && t'.control.charge == t.control.charge)
      && (!t'.ended ==>
           && |t'.path| == |t.path| + 1 && t'.path[..|t.path|] == t.path && t'.control.phase.Discharging?
           && t'.control.charge.(power := t.control.charge.power) == Drained(pack, bidirectional, t.control.charge, tick))
  {
    var charge := t.control.charge;
    PowerBounds(pack, bidirectional, current, charge.soc);
    DrainedSign(pack, bidirectional, charge, tick);
    var drained := Drained(pack, bidirectional, charge, tick);
    PowerBounds(pack, bidirectional, current, drained.soc);
    if charge.soc > cutoff {
      PathGrows(t.path, Point(Discharging, drained.soc), cutoff);
    }
  }

  lemma PathGrows(path: seq<Point>, next: Point, cutoff: real)
    requires Shaped(path) && Follows(Last(path), next)
    requires Last(path).phase.Discharging? ==> Last(path).soc > cutoff
    requires forall i :: 0 <= i < |path| - 1 && path[i].phase.Discharging? ==> path[i].soc > cutoff
    ensures Shaped(path + [next])
    ensures forall i :: 0 <= i < |path| && path[i].phase.Discharging? ==> path[i].soc > cutoff
  {
    var path' := path + [next];
    forall i | 0 <= i < |path'| - 1 ensures Follows(path'[i], path'[i + 1]) {
      assert i < |path| - 1 ==> Follows(path[i], path[i + 1]);
    }
  }

  lemma {:induction false} RunKeepsInvariant(pack: Pack, bidirectional: bool, c: Control, now: real, ticks: seq<Tick>)
    requires Ready(pack, c)
    ensures Invariant(pack, bidirectional, Run(pack, bidirectional, c, now, ticks), c.charge.power, c.current, c.cutoff)
  {
    if ticks == [] {
      OpeningKeepsInvariant(pack, bidirectional, c, now);
    } else {
      var n := |ticks| - 1;
      RunKeepsInvariant(pack, bidirectional, c, now, ticks[..n]);
      var before := Run(pack, bidirectional, c, now, ticks[..n]);
      if before.control.phase.Charging? {
        ChargingCycle(pack, bidirectional, before, ticks[n], c.charge.power, c.current, c.cutoff);
      } else if !before.ended {
        DischargingCycle(pack, bidirectional, before, ticks[n], c.charge.power, c.current, c.cutoff);
      }
    }
  }

  /** The number of points before the switch. */
  function ChargePoints(path: seq<Point>): (n: nat)
    ensures n <= |path|
    ensures forall i :: 0 <= i < n ==> path[i].phase.Charging?
    ensures n < |path| ==> path[n].phase.Discharging?
  {
    if path == [] || path[0].phase.Discharging? then 0 else 1 + ChargePoints(path[1..])
  }

  lemma {:induction false} AfterSwitch(path: seq<Point>, i: nat, j: nat)
    requires Shaped(path) && i <= j < |path| && path[i].phase.Discharging?
    ensures path[j].phase.Discharging? && path[j].soc <= path[i].soc
  {
    if i < j {
      AfterSwitch(path, i, j - 1);
      assert Follows(path[j - 1], path[j]);
    }
  }

  lemma {:induction false} BeforeSwitch(path: seq<Point>, i: nat, j: nat)
    requires Shaped(path) && i <= j < |path| && j <= ChargePoints(path)
    ensures path[i].soc <= path[j].soc
    ensures path[j].phase.Charging? ==> path[j].soc < 100.0
    ensures path[j].phase.Discharging? ==> path[j].soc == 100.0
  {
    if j > 0 {
      assert Follows(path[j - 1], path[j]);
    }
    if i < j {
      BeforeSwitch(path, i, j - 1);
    }
  }

  /** The state of charge climbs to exactly 100 percent, the phase changes there and only there, and then it falls. */
  predicate SinglePeak(path: seq<Point>, switch: nat) {
    && switch < |path| && path[switch].soc == 100.0
    && (forall i :: 0 <= i < |path| ==> (path[i].phase.Discharging? <==> i >= switch))
    && (forall i :: 0 <= i < switch ==> path[i].soc < 100.0)
    && (forall i, j :: 0 <= i <= j <= switch ==> path[i].soc <= path[j].soc)
    && (forall i, j :: switch <= i <= j < |path| ==> path[j].soc <= path[i].soc)
  }

  lemma ShapedHasSinglePeak(path: seq<Point>)
    requires Shaped(path) && Last(path).phase.Discharging?
    ensures SinglePeak(path, ChargePoints(path))
  {
    var switch := ChargePoints(path);
    assert switch < |path|;
    BeforeSwitch(path, 0, switch);
    forall i | switch <= i < |path| ensures path[i].phase.Discharging? {
      AfterSwitch(path, switch, i);
    }
    forall i | 0 <= i < switch ensures path[i].soc < 100.0 {
      BeforeSwitch(path, i, i);
    }
    forall i, j | 0 <= i <= j <= switch ensures path[i].soc <= path[j].soc {
      BeforeSwitch(path, i, j);
    }
    forall i, j | switch <= i <= j < |path| ensures path[j].soc <= path[i].soc {
      AfterSwitch(path, i, j);
    }
  }

  /**
   Whenever the car ends the test: the state of charge was exactly 100 percent at the only
   switch from charging to discharging, never rose afterwards, and is at or below the cutoff,
   which it had not reached one request earlier.
   */
  lemma EndedTest(pack: Pack, bidirectional: bool, c: Control, now: real, ticks: seq<Tick>)
    requires Ready(pack, c) && Run(pack, bidirectional, c, now, ticks).ended
    ensures var t := Run(pack, bidirectional, c, now, ticks);
      && |t.path| >= 2
      && SinglePeak(t.path, ChargePoints(t.path))
      && t.control.charge.soc == Last(t.path).soc <= c.cutoff < t.path[|t.path| - 2].soc
  {
    RunKeepsInvariant(pack, bidirectional, c, now, ticks);
    var t := Run(pack, bidirectional, c, now, ticks);
    ShapedHasSinglePeak(t.path);
    if |t.path| >= 2 {
      assert Follows(t.path[|t.path| - 2], t.path[|t.path| - 1]);
    }
  }

  // How long it takes.

  /** The request before the first tick counts as a cycle that began with it. */
  function Before(now: real, ticks: seq<Tick>): Tick {
    if ticks == [] then Tick(now, now) else ticks[|ticks| - 1]
  }

  /** From response to response each cycle takes at least `lo` seconds, wherever in the cycle they pass. */
  predicate Paced(now: real, ticks: seq<Tick>, lo: real) {
    ticks == [] ||
    (var n := |ticks| - 1;
     var previous, tick := Before(now, ticks[..n]), ticks[n];
     && Paced(now, ticks[..n], lo)
     && previous.asked <= tick.resumed <= tick.asked && tick.resumed - previous.resumed >= lo)
  }

  lemma {:induction false} PacedInOrder(now: real, ticks: seq<Tick>, lo: real)
    requires Paced(now, ticks, lo)
    ensures Before(now, ticks).resumed <= Before(now, ticks).asked
  {
  }

  /** What a power moves in a time span, unless the span is too short to be integrated. */
  function Part(pack: Pack, power: real, elapsed: real): real
    requires Sane(pack)
  {
    if elapsed < MinStep then 0.0 else Gain(pack, Energy(power, elapsed))
  }

  /** What a cycle of `lo` seconds moves at least: one of its two parts may be too short to count. */
  function PerCycle(pack: Pack, power: real, lo: real): real
    requires Sane(pack)
  {
    Gain(pack, Energy(power, lo - MinStep))
  }

  lemma UpdateByPart(pack: Pack, c: Charge, power: real, now: real)
    requires Sane(pack) && 0.0 <= c.soc <= 100.0
    ensures power >= 0.0 ==> Update(pack, c, power, now).soc == Min(100.0, c.soc + Part(pack, power, now - c.last))
    ensures power <= 0.0 ==> Update(pack, c, power, now).soc == Max(0.0, c.soc - Part(pack, -power, now - c.last))
  {
    var elapsed := now - c.last;
    if elapsed >= MinStep {
      ProductSign(power, elapsed);
      GainSign(pack, Energy(power, elapsed));
      NegatedEnergy(power, elapsed);
      GainAdds(pack, Energy(power, elapsed), 0.0);
    }
  }

  lemma PartIsMonotone(pack: Pack, p: real, q: real, elapsed: real)
    requires Sane(pack) && 0.0 <= p <= q
    ensures 0.0 <= Part(pack, p, elapsed) <= Part(pack, q, elapsed)
  {
    if elapsed >= MinStep {
      ProductIsMonotone(p, q, elapsed, elapsed);
      GainIsMonotone(pack, Energy(p, elapsed), Energy(q, elapsed));
      GainSign(pack, Energy(p, elapsed));
    }
  }

  lemma LongPart(pack: Pack, power: real, elapsed: real, least: real)
    requires Sane(pack) && power >= 0.0 && MinStep <= least <= elapsed
    ensures Part(pack, power, elapsed) >= Gain(pack, Energy(power, least))
  {
    ProductIsMonotone(power, power, least, elapsed);
    GainIsMonotone(pack, Energy(power, least), Energy(power, elapsed));
  }

  lemma EnergyAdds(power: real, a: real, b: real)
    ensures Energy(power, a + b) == Energy(power, a) + Energy(power, b)
  {
  }

  /** Two parts of a cycle of at least `lo` seconds. */
  lemma PartsAtLeast(pack: Pack, power: real, a: real, b: real, lo: real)
    requires Sane(pack) && power >= 0.0 && a >= 0.0 && b >= 0.0 && a + b >= lo >= 2.0 * MinStep
    ensures Part(pack, power, a) + Part(pack, power, b) >= PerCycle(pack, power, lo) >= 0.0
  {
    PartIsMonotone(pack, 0.0, power, a);
    PartIsMonotone(pack, 0.0, power, b);
    PerCycleIsMonotone(pack, 0.0, power, lo);
    if a < MinStep {
      LongPart(pack, power, b, lo - MinStep);
    } else if b < MinStep {
      LongPart(pack, power, a, lo - MinStep);
    } else {
      LongPart(pack, power, a + b, lo - MinStep);
      EnergyAdds(power, a, b);
      GainAdds(pack, Energy(power, a), Energy(power, b));
    }
  }

  lemma PerCycleIsMonotone(pack: Pack, p: real, q: real, lo: real)
    requires Sane(pack) && 0.0 <= p <= q && lo >= 2.0 * MinStep
    ensures 0.0 <= PerCycle(pack, p, lo) <= PerCycle(pack, q, lo)
  {
    ProductIsMonotone(p, q, lo - MinStep, lo - MinStep);
    GainSign(pack, Energy(p, lo - MinStep));
    GainIsMonotone(pack, Energy(p, lo - MinStep), Energy(q, lo - MinStep));
  }

  lemma OneMore(n: nat, unit: real)
    ensures Allowance(0, unit) == 0.0
    ensures Allowance(n + 1, unit) == Allowance(n, unit) + unit
  {
  }

  /** The charge after `n` cycles with positive power, the car's last delay included. */
  predicate Charged(pack: Pack, c: Charge, power: real, previous: Tick, n: nat, lo: real)
    requires Sane(pack)
  {
    && c.last == previous.asked
    && Min(100.0, Allowance(n, PerCycle(pack, power, lo)) + Part(pack, power, previous.asked - previous.resumed)) <= c.soc <= 100.0
  }

  /** Each cycle adds what its two parts move: the wait for the response and the delay before it. */
  lemma ChargedOn(pack: Pack, c: Charge, power: real, previous: Tick, tick: Tick, n: nat, lo: real)
    requires Sane(pack) && power > 0.0 && lo >= 2.0 * MinStep && 0.0 <= c.soc && Charged(pack, c, power, previous, n, lo)
    requires previous.resumed <= previous.asked <= tick.resumed <= tick.asked && tick.resumed - previous.resumed >= lo
    ensures Charged(pack, Update(pack, Update(pack, c, power, tick.resumed), power, tick.asked), power, tick, n + 1, lo)
  {
    var first := Update(pack, c, power, tick.resumed);
    UpdateByPart(pack, c, power, tick.resumed);
    UpdateSign(pack, c, power, tick.resumed);
    UpdateByPart(pack, first, power, tick.asked);
    PartsAtLeast(pack, power, previous.asked - previous.resumed, tick.resumed - previous.asked, lo);
    PartIsMonotone(pack, 0.0, power, tick.asked - tick.resumed);
    OneMore(n, PerCycle(pack, power, lo));
  }

  /** What the discharge moves per cycle at the lowest voltage. */
  function Fall(pack: Pack, current: real, lo: real): real
    requires Sane(pack)
  {
    PerCycle(pack, Power(current, pack.minVoltage), lo)
  }

  /** The part of the present cycle that a session which is not bidirectional has integrated already. */
  function Ahead(pack: Pack, bidirectional: bool, power: real, previous: Tick): real
    requires Sane(pack)
  {
    if bidirectional then 0.0 else Part(pack, -power, previous.asked - previous.resumed)
  }

  /** The charge after the first discharging cycle and `n` more. */
  predicate Fallen(pack: Pack, bidirectional: bool, c: Charge, current: real, previous: Tick, n: nat, lo: real)
    requires Sane(pack)
  {
    && c.last == (if bidirectional then previous.resumed else previous.asked)
    && c.soc <= Max(0.0, 100.0 - Allowance(n, Fall(pack, current, lo)) - Ahead(pack, bidirectional, c.power, previous))
  }

  /** The first discharging cycle begins where charging left the clock. */
  lemma FirstFall(pack: Pack, bidirectional: bool, c: Charge, current: real, previous: Tick, tick: Tick, lo: real)
    requires Sane(pack) && current > 0.0 && 0.0 <= c.soc <= 100.0 && c.power == TestPower(pack, bidirectional, current, c.soc)
    requires previous.asked <= tick.resumed <= tick.asked
    ensures Fallen(pack, bidirectional, Drained(pack, bidirectional, c, tick), current, tick, 0, lo)
  {
    PowerBounds(pack, bidirectional, current, c.soc);
    var first := Update(pack, c, c.power, tick.resumed);
    UpdateSign(pack, c, c.power, tick.resumed);
    UpdateByPart(pack, first, c.power, tick.asked);
    OneMore(0, Fall(pack, current, lo));
  }

  lemma FallsOn(pack: Pack, bidirectional: bool, c: Charge, current: real, previous: Tick, tick: Tick, n: nat, lo: real)
    requires Sane(pack) && current > 0.0 && 0.0 <= c.soc <= 100.0 && c.power == TestPower(pack, bidirectional, current, c.soc)
    requires lo >= 2.0 * MinStep && Fallen(pack, bidirectional, c, current, previous, n, lo)
    requires previous.resumed <= previous.asked <= tick.resumed <= tick.asked && tick.resumed - previous.resumed >= lo
    ensures Fallen(pack, bidirectional, Drained(pack, bidirectional, c, tick), current, tick, n + 1, lo)
  {
    PowerBounds(pack, bidirectional, current, c.soc);
    PerCycleIsMonotone(pack, Power(current, pack.minVoltage), -c.power, lo);
    UpdateByPart(pack, c, c.power, tick.resumed);
    OneMore(n, Fall(pack, current, lo));
    if bidirectional {
      PartsAtLeast(pack, -c.power, 0.0, tick.resumed - previous.resumed, lo);
    } else {
      var first := Update(pack, c, c.power, tick.resumed);
      UpdateSign(pack, c, c.power, tick.resumed);
      PartsAtLeast(pack, -c.power, previous.asked - previous.resumed, tick.resumed - previous.asked, lo);
      UpdateByPart(pack, first, c.power, tick.asked);
      PartIsMonotone(pack, 0.0, -c.power, tick.asked - tick.resumed);
    }
  }

  lemma {:induction false} ChargePointsGrow(path: seq<Point>, next: Point)
    ensures ChargePoints(path + [next]) ==
      if ChargePoints(path) < |path| then ChargePoints(path) else if next.phase.Charging? then |path| + 1 else |path|
  {
    if path != [] && path[0].phase.Charging? {
      assert (path + [next])[1..] == path[1..] + [next];
      ChargePointsGrow(path[1..], next);
    } else if path != [] {
      assert (path + [next])[0] == path[0];
    }
  }

  /** How far a test that goes on has come; `n` cycles' charge exceed 100 percent. */
  predicate Progress(pack: Pack, bidirectional: bool, t: Test, c: Control, previous: Tick, lo: real, n: nat)
    requires Sane(pack)
  {
    var points, total := ChargePoints(t.path), |t.path|;
    if t.control.phase.Charging? then points == total > 0 && Charged(pack, t.control.charge, c.charge.power, previous, total - 1, lo)
    else
      && points <= n && points < total
      && (if total - points == 1 then t.control.charge.last == previous.asked
          else Fallen(pack, bidirectional, t.control.charge, c.current, previous, total - points - 2, lo))
  }

  lemma OpeningProgress(pack: Pack, bidirectional: bool, c: Control, now: real, lo: real, n: nat)
    requires Ready(pack, c)
    ensures Progress(pack, bidirectional, Opening(pack, bidirectional, c, now), c, Tick(now, now), lo, n)
  {
    UpdateSign(pack, c.charge, c.charge.power, now);
    OneMore(0, PerCycle(pack, c.charge.power, lo));
  }

  lemma AllowanceGrows(a: nat, b: nat, unit: real)
    requires a <= b && unit >= 0.0
    ensures Allowance(a, unit) <= Allowance(b, unit)
  {
  }

  /** A test that still charges has not used its `n` cycles. */
  lemma ChargingIsShort(pack: Pack, c: Charge, power: real, previous: Tick, k: nat, lo: real, n: nat)
    requires Sane(pack) && power > 0.0 && lo >= 2.0 * MinStep && Charged(pack, c, power, previous, k, lo) && c.soc < 100.0
    requires Allowance(n, PerCycle(pack, power, lo)) > 100.0
    ensures k < n
  {
    PerCycleIsMonotone(pack, 0.0, power, lo);
    PartIsMonotone(pack, 0.0, power, previous.asked - previous.resumed);
    if k >= n {
      AllowanceGrows(n, k, PerCycle(pack, power, lo));
    }
  }

  lemma ChargingProgress(pack: Pack, bidirectional: bool, t: Test, c: Control, previous: Tick, tick: Tick, lo: real, n: nat)
    requires Ready(pack, c) && Invariant(pack, bidirectional, t, c.charge.power, c.current, c.cutoff) && t.control.phase.Charging?
    requires Progress(pack, bidirectional, t, c, previous, lo, n) && lo >= 2.0 * MinStep
    requires Allowance(n, PerCycle(pack, c.charge.power, lo)) > 100.0
    requires previous.resumed <= previous.asked <= tick.resumed <= tick.asked && tick.resumed - previous.resumed >= lo
    ensures Progress(pack, bidirectional, Cycle(pack, bidirectional, t, tick), c, tick, lo, n)
  {
    var t' := Cycle(pack, bidirectional, t, tick);
    ChargingCycle(pack, bidirectional, t, tick, c.charge.power, c.current, c.cutoff);
    assert t'.path == t.path + [Last(t'.path)];
    ChargePointsGrow(t.path, Last(t'.path));
    ChargedOn(pack, t.control.charge, c.charge.power, previous, tick, |t.path| - 1, lo);
    ChargingIsShort(pack, t.control.charge, c.charge.power, previous, |t.path| - 1, lo, n);
  }

  lemma DischargingProgress(pack: Pack, bidirectional: bool, t: Test, c: Control, previous: Tick, tick: Tick, lo: real, n: nat)
    requires Ready(pack, c) && Invariant(pack, bidirectional, t, c.charge.power, c.current, c.cutoff)
    requires t.control.phase.Discharging? && !t.ended && !Cycle(pack, bidirectional, t, tick).ended
    requires Progress(pack, bidirectional, t, c, previous, lo, n) && lo >= 2.0 * MinStep
    requires previous.resumed <= previous.asked <= tick.resumed <= tick.asked && tick.resumed - previous.resumed >= lo
    ensures Progress(pack, bidirectional, Cycle(pack, bidirectional, t, tick), c, tick, lo, n)
  {
    var t' := Cycle(pack, bidirectional, t, tick);
    DischargingCycle(pack, bidirectional, t, tick, c.charge.power, c.current, c.cutoff);
    assert t'.path == t.path + [Last(t'.path)];
    ChargePointsGrow(t.path, Last(t'.path));
    if |t.path| - ChargePoints(t.path) == 1 {
      FirstFall(pack, bidirectional, t.control.charge, c.current, previous, tick, lo);
    } else {
      FallsOn(pack, bidirectional, t.control.charge, c.current, previous, tick, |t.path| - ChargePoints(t.path) - 2, lo);
    }
    SameFall(pack, bidirectional, t.control.charge, t'.control.charge, c.current, tick, |t'.path| - ChargePoints(t'.path) - 2, lo);
  }

  /** Refreshing the power afterwards, as bidirectional sessions do, changes nothing. */
  lemma SameFall(pack: Pack, bidirectional: bool, c: Charge, c': Charge, current: real, tick: Tick, n: nat, lo: real)
    requires Sane(pack) && c'.(power := c.power) == Drained(pack, bidirectional, c, tick)
    requires bidirectional || c'.power == c.power
    requires Fallen(pack, bidirectional, Drained(pack, bidirectional, c, tick), current, tick, n, lo)
    ensures Fallen(pack, bidirectional, c', current, tick, n, lo)
  {
  }

  lemma {:induction false} RunProgress(pack: Pack, bidirectional: bool, c: Control, now: real, ticks: seq<Tick>, lo: real, n: nat)
    requires Ready(pack, c) && lo >= 2.0 * MinStep && Paced(now, ticks, lo)
    requires Allowance(n, PerCycle(pack, c.charge.power, lo)) > 100.0
    ensures var t := Run(pack, bidirectional, c, now, ticks);
      !t.ended ==> |t.path| == |ticks| + 1 && Progress(pack, bidirectional, t, c, Before(now, ticks), lo, n)
  {
    if ticks == [] {
      OpeningProgress(pack, bidirectional, c, now, lo, n);
    } else {
      var last := |ticks| - 1;
      RunProgress(pack, bidirectional, c, now, ticks[..last], lo, n);
      RunKeepsInvariant(pack, bidirectional, c, now, ticks[..last]);
      PacedInOrder(now, ticks[..last], lo);
      var before, previous := Run(pack, bidirectional, c, now, ticks[..last]), Before(now, ticks[..last]);
      if !Run(pack, bidirectional, c, now, ticks).ended {
        if before.control.phase.Charging? {
          ChargingCycle(pack, bidirectional, before, ticks[last], c.charge.power, c.current, c.cutoff);
          ChargingProgress(pack, bidirectional, before, c, previous, ticks[last], lo, n);
        } else {
          DischargingCycle(pack, bidirectional, before, ticks[last], c.charge.power, c.current, c.cutoff);
          DischargingProgress(pack, bidirectional, before, c, previous, ticks[last], lo, n);
        }
      }
    }
  }

  lemma DischargingIsShort(pack: Pack, bidirectional: bool, c: Charge, current: real, cutoff: real, previous: Tick, k: nat, lo: real, m: nat)
    requires Sane(pack) && current > 0.0 && lo >= 2.0 * MinStep && Fallen(pack, bidirectional, c, current, previous, k, lo)
    requires 0.0 <= cutoff < c.soc <= 100.0 && c.power == TestPower(pack, bidirectional, current, c.soc)
    requires Allowance(m, Fall(pack, current, lo)) > 100.0 - cutoff
    ensures k < m
  {
    PowerBounds(pack, bidirectional, current, c.soc);
    PerCycleIsMonotone(pack, 0.0, Power(current, pack.minVoltage), lo);
    PartIsMonotone(pack, 0.0, -c.power, previous.asked - previous.resumed);
    if k >= m {
      AllowanceGrows(m, k, Fall(pack, current, lo));
    }
  }

  lemma LongTestHasEnded(pack: Pack, bidirectional: bool, t: Test, c: Control, previous: Tick, lo: real, n: nat, m: nat)
    requires Ready(pack, c) && lo >= 2.0 * MinStep && Invariant(pack, bidirectional, t, c.charge.power, c.current, c.cutoff)
    requires Progress(pack, bidirectional, t, c, previous, lo, n) && |t.path| >= n + m + 2
    requires Allowance(n, PerCycle(pack, c.charge.power, lo)) > 100.0
    requires Allowance(m, Fall(pack, c.current, lo)) > 100.0 - c.cutoff
    ensures t.control.phase.Discharging? && t.control.charge.soc <= c.cutoff
  {
    var points := ChargePoints(t.path);
    if t.control.phase.Charging? {
      ChargingIsShort(pack, t.control.charge, c.charge.power, previous, |t.path| - 1, lo, n);
    } else if t.control.charge.soc > c.cutoff {
      DischargingIsShort(pack, bidirectional, t.control.charge, c.current, c.cutoff, previous, |t.path| - points - 2, lo, m);
    }
  }

  /**
   The test ends after a number of cycles that the capacity, the powers, the cutoff and the
   cycle time determine: `n` cycles' charge exceed 100 percent and `m` cycles' discharge at
   the minimum voltage exceed the way from 100 percent to the cutoff.
   */
  lemma TestEnds(pack: Pack, bidirectional: bool, c: Control, now: real, ticks: seq<Tick>, lo: real, n: nat, m: nat)
    requires Ready(pack, c) && lo >= 2.0 * MinStep && Paced(now, ticks, lo)
    requires Allowance(n, PerCycle(pack, c.charge.power, lo)) > 100.0
    requires Allowance(m, Fall(pack, c.current, lo)) > 100.0 - c.cutoff
    requires |ticks| >= n + m + 2
    ensures Run(pack, bidirectional, c, now, ticks).ended
  {
    var last := |ticks| - 1;
    var before := Run(pack, bidirectional, c, now, ticks[..last]);
    if !before.ended {
      RunProgress(pack, bidirectional, c, now, ticks[..last], lo, n);
      RunKeepsInvariant(pack, bidirectional, c, now, ticks[..last]);
      LongTestHasEnded(pack, bidirectional, before, c, Before(now, ticks[..last]), lo, n, m);
      DischargingCycle(pack, bidirectional, before, ticks[last], c.charge.power, c.current, c.cutoff);
    }
  }

  // How far below the cutoff the test can end.

  /** No cycle lasts longer than `hi`, from response to response and from request to request. */
  predicate Brisk(now: real, ticks: seq<Tick>, hi: real) {
    ticks == [] ||
    (var n := |ticks| - 1;
     var previous, tick := Before(now, ticks[..n]), ticks[n];
     && Brisk(now, ticks[..n], hi)
     && previous.resumed <= previous.asked <= tick.resumed <= tick.asked
     && tick.resumed - previous.resumed <= hi && tick.asked - previous.asked <= hi)
  }

  predicate NeverFallsMore(path: seq<Point>, most: real) {
    forall i :: 0 <= i < |path| - 1 && path[i].phase.Discharging? ==> path[i + 1].soc >= path[i].soc - most
  }

  /** What the discharge moves in `hi` seconds at the highest voltage. */
  function Most(pack: Pack, current: real, hi: real): real
    requires Sane(pack)
  {
    Gain(pack, Energy(Power(current, pack.maxVoltage), hi))
  }

  lemma ShortPart(pack: Pack, p: real, q: real, elapsed: real, hi: real)
    requires Sane(pack) && 0.0 <= p <= q && 0.0 <= elapsed <= hi
    ensures 0.0 <= Part(pack, p, elapsed) <= Gain(pack, Energy(q, hi))
  {
    ProductIsMonotone(p, q, elapsed, hi);
    GainSign(pack, Energy(p, elapsed));
    GainSign(pack, Energy(q, hi));
    GainIsMonotone(pack, Energy(p, elapsed), Energy(q, hi));
  }

  lemma PartsAtMost(pack: Pack, power: real, a: real, b: real)
    requires Sane(pack) && power >= 0.0 && a >= 0.0 && b >= 0.0
    ensures Part(pack, power, a) + Part(pack, power, b) <= Gain(pack, Energy(power, a + b))
  {
    EnergyAdds(power, a, b);
    GainAdds(pack, Energy(power, a), Energy(power, b));
    ShortPart(pack, power, power, a, a);
    ShortPart(pack, power, power, b, b);
  }

  /** The integrator's clock: the last request while charging or just switched, and in every session that is not bidirectional. */
  predicate Clock(bidirectional: bool, t: Test, previous: Tick) {
    var n := |t.path|;
    n > 0 &&
    (t.control.charge.last ==
       if bidirectional && t.control.phase.Discharging? && n >= 2 && t.path[n - 2].phase.Discharging? then previous.resumed else previous.asked)
  }

  lemma DropAtMost(pack: Pack, bidirectional: bool, t: Test, c: Control, previous: Tick, tick: Tick, hi: real)
    requires Ready(pack, c) && Invariant(pack, bidirectional, t, c.charge.power, c.current, c.cutoff)
    requires t.control.phase.Discharging? && Clock(bidirectional, t, previous)
    requires previous.resumed <= previous.asked <= tick.resumed <= tick.asked
    requires tick.resumed - previous.resumed <= hi && tick.asked - previous.asked <= hi
    ensures Drained(pack, bidirectional, t.control.charge, tick).soc >= t.control.charge.soc - Most(pack, c.current, hi)
  {
    var charge := t.control.charge;
    PowerBounds(pack, bidirectional, c.current, charge.soc);
    UpdateByPart(pack, charge, charge.power, tick.resumed);
    if bidirectional {
      ShortPart(pack, -charge.power, Power(c.current, pack.maxVoltage), tick.resumed - charge.last, hi);
    } else {
      var first := Update(pack, charge, charge.power, tick.resumed);
      UpdateSign(pack, charge, charge.power, tick.resumed);
      UpdateByPart(pack, first, charge.power, tick.asked);
      PartsAtMost(pack, -charge.power, tick.resumed - previous.asked, tick.asked - tick.resumed);
      ShortPart(pack, -charge.power, Power(c.current, pack.maxVoltage), tick.asked - previous.asked, hi);
      ProductIsMonotone(-charge.power, Power(c.current, pack.maxVoltage), tick.asked - previous.asked, hi);
      GainIsMonotone(pack, Energy(-charge.power, tick.asked - previous.asked), Energy(Power(c.current, pack.maxVoltage), hi));
    }
  }

  lemma NeverFallsMoreOn(path: seq<Point>, next: Point, most: real)
    requires path != [] && NeverFallsMore(path, most)
    requires Last(path).phase.Discharging? ==> next.soc >= Last(path).soc - most
    ensures NeverFallsMore(path + [next], most)
  {
  }

  lemma {:induction false} RunNeverFallsMore(pack: Pack, bidirectional: bool, c: Control, now: real, ticks: seq<Tick>, hi: real)
    requires Ready(pack, c) && Brisk(now, ticks, hi)
    ensures var t := Run(pack, bidirectional, c, now, ticks);
      NeverFallsMore(t.path, Most(pack, c.current, hi)) && (!t.ended ==> Clock(bidirectional, t, Before(now, ticks)))
  {
    if ticks != [] {
      var n := |ticks| - 1;
      RunNeverFallsMore(pack, bidirectional, c, now, ticks[..n], hi);
      RunKeepsInvariant(pack, bidirectional, c, now, ticks[..n]);
      var before := Run(pack, bidirectional, c, now, ticks[..n]);
      if !before.ended {
        CycleNeverFallsMore(pack, bidirectional, before, c, Before(now, ticks[..n]), ticks[n], hi);
      }
    }
  }

  lemma CycleNeverFallsMore(pack: Pack, bidirectional: bool, t: Test, c: Control, previous: Tick, tick: Tick, hi: real)
    requires Ready(pack, c) && Invariant(pack, bidirectional, t, c.charge.power, c.current, c.cutoff) && !t.ended
    requires NeverFallsMore(t.path, Most(pack, c.current, hi)) && Clock(bidirectional, t, previous)
    requires previous.resumed <= previous.asked <= tick.resumed <= tick.asked
    requires tick.resumed - previous.resumed <= hi && tick.asked - previous.asked <= hi
    ensures var t' := Cycle(pack, bidirectional, t, tick);
      NeverFallsMore(t'.path, Most(pack, c.current, hi)) && (!t'.ended ==> Clock(bidirectional, t', tick))
  {
    var t' := Cycle(pack, bidirectional, t, tick);
    if t.control.phase.Charging? {
      ChargingCycle(pack, bidirectional, t, tick, c.charge.power, c.current, c.cutoff);
    } else {
      DischargingCycle(pack, bidirectional, t, tick, c.charge.power, c.current, c.cutoff);
      DropAtMost(pack, bidirectional, t, c, previous, tick, hi);
    }
    if !t'.ended {
      assert t'.path == t.path + [Last(t'.path)];
      NeverFallsMoreOn(t.path, Last(t'.path), Most(pack, c.current, hi));
    }
  }

  /** The test ends at or below the cutoff by less than one cycle's discharge. */
  lemma EndsNearCutoff(pack: Pack, bidirectional: bool, c: Control, now: real, ticks: seq<Tick>, hi: real)
    requires Ready(pack, c) && Brisk(now, ticks, hi)
    requires Run(pack, bidirectional, c, now, ticks).ended
    ensures c.cutoff - Most(pack, c.current, hi) < Run(pack, bidirectional, c, now, ticks).control.charge.soc <= c.cutoff
  {
    EndedTest(pack, bidirectional, c, now, ticks);
    RunNeverFallsMore(pack, bidirectional, c, now, ticks, hi);
    var path := Run(pack, bidirectional, c, now, ticks).path;
    assert Last(path) == path[|path| - 2 + 1];
    assert ChargePoints(path) != |path| - 1;
  }

  // The same loop without the test: an ordinary charging session.

  predicate Plain(pack: Pack, c: Control) {
    && Sane(pack) && !c.diagnostic && !c.completed && c.target <= 100.0
    && 0.0 <= c.charge.soc <= 100.0 && c.charge.power > 0.0
  }

  lemma PlainCycle(pack: Pack, bidirectional: bool, t: Test, tick: Tick)
    requires Plain(pack, t.control) && !t.ended
    ensures var t', power := Cycle(pack, bidirectional, t, tick), t.control.charge.power;
      && (t'.ended <==> t.control.charge.soc >= t.control.target)
      && (!t'.ended ==>
           && t'.control == t.control.(charge := Update(pack, Update(pack, t.control.charge, power, tick.resumed), power, tick.asked))
           && t.control.charge.soc <= t'.control.charge.soc <= 100.0)
  {
    var charge := t.control.charge;
    var first := Update(pack, charge, charge.power, tick.resumed);
    UpdateSign(pack, charge, charge.power, tick.resumed);
    UpdateSign(pack, first, charge.power, tick.asked);
  }

  lemma {:induction false} PlainRun(pack: Pack, bidirectional: bool, c: Control, now: real, ticks: seq<Tick>, lo: real)
    requires Plain(pack, c) && lo >= 2.0 * MinStep && Paced(now, ticks, lo)
    ensures var t := Run(pack, bidirectional, c, now, ticks);
      !t.ended ==>
        && t.control == c.(charge := t.control.charge) && t.control.charge.power == c.charge.power
        && c.charge.soc <= t.control.charge.soc
        && Charged(pack, t.control.charge, c.charge.power, Before(now, ticks), |ticks|, lo)
  {
    if ticks == [] {
      UpdateSign(pack, c.charge, c.charge.power, now);
      OneMore(0, PerCycle(pack, c.charge.power, lo));
    } else {
      var n := |ticks| - 1;
      PlainRun(pack, bidirectional, c, now, ticks[..n], lo);
      PacedInOrder(now, ticks[..n], lo);
      var before := Run(pack, bidirectional, c, now, ticks[..n]);
      if !before.ended {
        PlainCycle(pack, bidirectional, before, ticks[n]);
        ChargedOn(pack, before.control.charge, c.charge.power, Before(now, ticks[..n]), ticks[n], n, lo);
      }
    }
  }

  /** Ordinary charging with positive power reaches any target up to 100 percent within a number of cycles. */
  lemma PlainEnds(pack: Pack, bidirectional: bool, c: Control, now: real, ticks: seq<Tick>, lo: real, n: nat)
    requires Plain(pack, c) && lo >= 2.0 * MinStep && Paced(now, ticks, lo)
    requires Allowance(n, PerCycle(pack, c.charge.power, lo)) > 100.0 && |ticks| > n
    ensures Run(pack, bidirectional, c, now, ticks).ended
  {
    var last := |ticks| - 1;
    PlainRun(pack, bidirectional, c, now, ticks[..last], lo);
    var before := Run(pack, bidirectional, c, now, ticks[..last]);
    if !before.ended {
      PlainCycle(pack, bidirectional, before, ticks[last]);
      if before.control.charge.soc < c.target {
        ChargingIsShort(pack, before.control.charge, c.charge.power, Before(now, ticks[..last]), last, lo, n);
      }
    }
  }

  /** Without power nothing ends the loop: an AC session in Scheduled mode, whose power is never set, keeps charging. */
  lemma {:induction false} NoPowerNeverEnds(pack: Pack, bidirectional: bool, c: Control, now: real, ticks: seq<Tick>)
    requires Sane(pack) && !c.diagnostic && !c.completed && 0.0 <= c.charge.soc <= 100.0 && c.charge.soc < c.target
    requires c.charge.power == 0.0
    ensures var t := Run(pack, bidirectional, c, now, ticks);
      !t.ended && t.control == c.(charge := c.charge.(last := t.control.charge.last))
  {
    if ticks == [] {
      UpdateSign(pack, c.charge, 0.0, now);
    } else {
      var n := |ticks| - 1;
      NoPowerNeverEnds(pack, bidirectional, c, now, ticks[..n]);
      var charge := Run(pack, bidirectional, c, now, ticks[..n]).control.charge;
      UpdateSign(pack, charge, 0.0, ticks[n].resumed);
      UpdateSign(pack, Update(pack, charge, 0.0, ticks[n].resumed), 0.0, ticks[n].asked);
    }
  }

  /** An ordinary loop ends with the first response at which the charge has reached the target, and with no other. */
  lemma {:induction false} EndsExactlyAtTarget(pack: Pack, bidirectional: bool, c: Control, now: real, ticks: seq<Tick>, next: Tick)
    requires Sane(pack) && !c.diagnostic && !c.completed
    ensures var t := Run(pack, bidirectional, c, now, ticks);
      && t.path != [] && Last(t.path).soc == t.control.charge.soc
      && (forall i :: 0 <= i < |t.path| - 1 ==> t.path[i].soc < c.target)
      && (t.ended ==> Last(t.path).soc >= c.target)
      && (Cycle(pack, bidirectional, t, next).ended <==> Last(t.path).soc >= c.target)
      && !t.control.diagnostic && !t.control.completed && t.control.target == c.target
  {
    if ticks != [] {
      var n := |ticks| - 1;
      EndsExactlyAtTarget(pack, bidirectional, c, now, ticks[..n], ticks[n]);
      var before, after := Run(pack, bidirectional, c, now, ticks[..n]), Run(pack, bidirectional, c, now, ticks);
      if !after.ended {
        assert after.path[..|before.path|] == before.path;
      }
    }
  }
}
