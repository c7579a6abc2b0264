/**
 Joint DC runs end, on both sides. The car's charge controller answers the questions of the
 session here: it is asked for the precharge test, for the end of charging and for the
 welding detection, and its battery moves with the charge loop.
 */
module Termination {
  import opened Options
  import opened Messages
  import opened Battery
  import opened BatteryControl
  import opened JointSessions
  import D = Diagnostic
  import E = EvccProtocol
  import S = SeccProtocol

  /** What neither machine decides: the station's surroundings, the clock, the configuration and the random source of the car. */
  datatype Input = Input(
    secc: S.Env,
    now: real,
    certInstallNeeded: bool,
    oemKeyReadable: bool,
    contractKeyReadable: bool,
    supported: seq<Service>,
    diagnostic: Option<Service>,
    profileReady: bool,
    hints: Hints,
    evVoltage: real,
    tick: D.Tick)

  /**
   `hints` come from the last finished schedule exchange. `begun` is the controller when the
   charge loop was entered, at `begunAt`; `ticks` are the loop cycles since.
   */
  datatype Drive = Drive(joint: Joint, control: Control, hints: Hints, bidirectional: bool, begun: Control, begunAt: real,
                         ticks: seq<D.Tick>)

  function Test(pack: Pack, d: Drive): D.Test
    requires Sane(pack)
  {
    D.Run(pack, d.bidirectional, d.begun, d.begunAt, d.ticks)
  }

  /** Only a bidirectional DC service in Scheduled mode builds discharge requests. */
  predicate Bidirectional(e: E.Session) {
    e.selected.Some? && e.selected.value.service.DcBpt? && e.mode == Some(Scheduled)
  }

  /** The controller's answers to the questions of the car's present state. */
  function Answers(pack: Pack, d: Drive, input: Input): E.Env
    requires Sane(pack)
  {
    var (once, precharged) := Precharged(d.control, input.secc.evseVoltage, input.evVoltage);
    E.Env(input.now, input.certInstallNeeded, input.oemKeyReadable, input.contractKeyReadable, input.supported, input.diagnostic, input.profileReady,
          precharged, Precharged(once, input.secc.evseVoltage, input.evVoltage).1,
          !D.Cycle(pack, d.bidirectional, Test(pack, d), input.tick).ended, Welded(d.control).1)
  }

  /** Building the power profile of a Dynamic session sets the power. */
  function Negotiated(pack: Pack, c: Control, mode: Option<ControlMode>, hints: Hints, ready: bool): Control {
    if mode != Some(Scheduled) && ready then Rescaled(pack, c, hints) else c
  }

  function ControlAfter(pack: Pack, d: Drive, input: Input, joint: Joint): Control
    requires Sane(pack) && d.joint.Running? && joint.Running?
  {
    var e := d.joint.evcc;
    match e.state
    case ServiceDetail =>
      if joint.pending.ServiceSelectionReq? && input.diagnostic.Some? && joint.pending.vas != []
      then Activated(pack, d.control, 5.0, 50.0, 20.0) else d.control
    case DcParameters => WithLimits(pack, d.control, input.secc.maxPower)
    case ScheduleExchange =>
      if joint.pending.ScheduleExchangeReq? then d.control
      else Negotiated(pack, d.control, e.mode, input.hints, input.profileReady)
    case PreCharge(_, _) =>
      var once := Precharged(d.control, input.secc.evseVoltage, input.evVoltage).0;
      if joint.pending.PreChargeReq? then Precharged(once, input.secc.evseVoltage, input.evVoltage).0
      else Negotiated(pack, once, e.mode, d.hints, input.profileReady)
    case PowerDelivery =>
      if e.evProcessing.Ongoing? then Negotiated(pack, d.control, e.mode, d.hints, input.profileReady) else d.control
    case Welding(complete, _) => if complete then d.control else Welded(d.control).0
    case _ => d.control
  }

  function Next(pack: Pack, d: Drive, input: Input): Drive
    requires Sane(pack)
  {
    if d.joint.Over? then d
    else
      var joint := JointSessions.Next(d.joint, Turn(input.secc, Answers(pack, d, input)));
      if joint.Over? then d.(joint := joint)
      else
        var control := ControlAfter(pack, d, input, joint);
        var hints := if d.joint.evcc.state.ScheduleExchange? then input.hints else d.hints;
        if joint.evcc.state.DcLoop? && !d.joint.evcc.state.DcLoop? then
          Drive(joint, control, hints, Bidirectional(joint.evcc), control, input.tick.asked, [])
        else
          d.(joint := joint, control := control, hints := hints,
             ticks := if d.joint.evcc.state.DcLoop? then d.ticks + [input.tick] else d.ticks)
  }

  function Start(now: real): Drive { Drive(Opening, Fresh(now), Hints(None, None), false, Fresh(now), now, []) }

  function Run(pack: Pack, now: real, inputs: seq<Input>): Drive
    requires Sane(pack)
  {
    if inputs == [] then Start(now) else Next(pack, Run(pack, now, inputs[..|inputs| - 1]), inputs[|inputs| - 1])
  }

  /** A turn after which the car repeats the same kind of request because somebody is not ready yet. */
  predicate Ongoing(before: Joint, after: Joint) {
    && before.Running? && after.Running? && KindOf(before.pending) == KindOf(after.pending)
    && (before.pending.AuthorizationReq? || before.pending.ScheduleExchangeReq? || before.pending.CableCheckReq?
        || before.pending.PowerDeliveryReq?)
  }

  function OngoingTurns(pack: Pack, now: real, inputs: seq<Input>): nat
    requires Sane(pack)
  {
    if inputs == [] then 0
    else
      var before := inputs[..|inputs| - 1];
      OngoingTurns(pack, now, before)
      + if Ongoing(Run(pack, now, before).joint, Run(pack, now, inputs).joint) then 1 else 0
  }

  function Rank(e: E.Session): nat {
    match e.state
    case SessionSetup => 16
    case AuthorizationSetup => 15
    case CertificateInstallation => 14
    case Authorization => 13
    case ServiceDiscovery => 12
    case ServiceDetail => 11
    case ServiceSelection => 10
    case AcParameters => 9
    case DcParameters => 9
    case ScheduleExchange => 8
    case CableCheck(_) => 7
    case PreCharge(_, _) => 6
    case PowerDelivery => if e.stop.None? then 5 else 3
    case AcLoop => 4
    case DcLoop(_) => 4
    case Welding(_, _) => 2
    case SessionStop => 1
    case Terminated => 0
  }

  function Left(limit: nat, count: nat): nat { if count >= limit then 0 else limit - count }

  function DetailsLeft(e: E.Session, details: nat): nat {
    if Rank(e) > 11 then details else if Rank(e) == 11 then |e.toRequest| else 0
  }

  function PrechargesLeft(e: E.Session, c: Control): nat {
    if Rank(e) > 6 then 6
    else if e.state.PreCharge? then Left(5, c.prechargeCycles) + if e.state.builtOnce then 0 else 1
    else 0
  }

  function CyclesLeft(d: Drive, cycles: nat): nat
    requires d.joint.Running?
  {
    if Rank(d.joint.evcc) > 4 then cycles else if d.joint.evcc.state.DcLoop? then Left(cycles, |d.ticks|) else 0
  }

  function WeldingsLeft(e: E.Session, c: Control): nat {
    if Rank(e) > 2 then 4
    else if e.state.Welding? then if e.state.complete then 0 else Left(3, c.weldingCycles) + 1
    else 0
  }

  /** How many turns that are not Ongoing may still follow. */
  function Measure(d: Drive, details: nat, cycles: nat): nat {
    if d.joint.Over? then 0
    else
      var e := d.joint.evcc;
      Rank(e) + DetailsLeft(e, details) + PrechargesLeft(e, d.control) + CyclesLeft(d, cycles) + WeldingsLeft(e, d.control)
  }

  predicate StopFits(e: E.Session) {
    && (E.Early(e.state) ==> e.toRequest == [])
    && (e.stop.Some? ==> !e.stop.value.Pause?)
    && (e.stop.Some? ==> e.state.PowerDelivery? || e.state.Welding? || e.state.SessionStop? || e.state.Terminated?)
  }

  /** One reaction of the car: it moves on, or it repeats its request for one of the reasons listed. */
  predicate Moves(e: E.Session, e': E.Session, env: E.Env, details: nat) {
    && StopFits(e')
    && (e'.state.ServiceDetail? && !e.state.ServiceDetail? ==> |e'.toRequest| < details)
    && (e'.state.PreCharge? && !e.state.PreCharge? ==> !e'.state.builtOnce)
    && (e'.state.Welding? && !e.state.Welding? ==> !e'.state.complete)
    && (Rank(e') < Rank(e) || (Rank(e') == Rank(e) && match e.state {
          case Authorization => e'.state.Authorization?
          case ScheduleExchange => e'.state.ScheduleExchange?
          case CableCheck(_) => e'.state.CableCheck?
          case PowerDelivery => e'.state.PowerDelivery?
          case ServiceDetail => e'.state.ServiceDetail? && |e'.toRequest| < |e.toRequest|
          case PreCharge(builtOnce, _) => e'.state.PreCharge? && e'.state.builtOnce && !(env.precharged && builtOnce)
          case DcLoop(_) => e'.state.DcLoop? && env.continueCharging
          case AcLoop => e'.state.AcLoop?
          case Welding(complete, _) => e'.state.Welding? && !complete && e'.state.complete == env.weldingFinished
          case _ => false
        }))
  }

  predicate FewMatches(e: E.Session, res: Response, env: E.Env, details: nat) {
    res.body.ServiceDiscoveryRes? ==> |E.Matching(res.body.energy, env.supported)| <= details
  }

  lemma EarlyMoves(e: E.Session, res: Response, env: E.Env, details: nat)
    requires StopFits(e) && E.Step(e, res, env).1.Sent? && E.Early(e.state) && !e.state.ServiceDiscovery?
    ensures Moves(e, E.Step(e, res, env).0, env, details)
  {
  }

  /** A discovery leads to the details of what it found, or to the end. */
  lemma DiscoveryOutcome(e: E.Session, renegotiation: bool, energy: seq<Service>, vas: seq<Service>, env: E.Env)
    requires e.toRequest == []
    ensures var (e', out) := E.OnServiceDiscovery(e, renegotiation, energy, vas, env);
      out.Sent? ==>
        || (e'.state.SessionStop? && e'.stop == Some(ChargingSession.Terminate))
        || (e'.state.ServiceDetail? && e'.stop == e.stop && |e'.toRequest| < |E.Matching(energy, env.supported)|)
  {
    var found := E.Matching(energy, env.supported);
    assert e.toRequest + found == found;
  }

  lemma DiscoveryMoves(e: E.Session, res: Response, env: E.Env, details: nat)
    requires StopFits(e) && E.Step(e, res, env).1.Sent? && FewMatches(e, res, env, details)
    requires e.state.ServiceDiscovery?
    ensures Moves(e, E.Step(e, res, env).0, env, details)
  {
    hide E.Step;
    hide E.OnServiceDiscovery;
    E.ServiceDiscoveryStep(e, res, env);
    DiscoveryOutcome(e, res.body.renegotiation, res.body.energy, res.body.vas, env);
  }

  /** A detail leads to the next one, to the selection or to the end. */
  lemma DetailOutcome(e: E.Session, env: E.Env)
    ensures var (e', out) := E.AfterDetail(e, env);
      out.Sent? ==>
        && e'.stop == e.stop
        && (|| (e'.state.ServiceDetail? && |e'.toRequest| < |e.toRequest|)
            || e'.state.ServiceSelection?
            || (e'.state.SessionStop? && out.req == SessionStopReq(ChargingSession.Terminate)))
  {
  }

  lemma DetailMoves(e: E.Session, res: Response, env: E.Env, details: nat)
    requires StopFits(e) && E.Step(e, res, env).1.Sent?
    requires e.state.ServiceDetail?
    ensures Moves(e, E.Step(e, res, env).0, env, details)
  {
    hide E.Step;
    hide E.AfterDetail;
    E.ServiceDetailStep(e, res, env);
    DetailOutcome(e.(matched := E.StoreAll(e.matched, res.body.service, res.body.sets)), env);
  }

  lemma SelectionMoves(e: E.Session, res: Response, env: E.Env, details: nat)
    requires StopFits(e) && E.Step(e, res, env).1.Sent?
    requires e.state.ServiceSelection?
    ensures Moves(e, E.Step(e, res, env).0, env, details)
  {
    hide E.Step;
    E.ServiceSelectionStep(e, res, env);
  }

  lemma ParametersMove(e: E.Session, res: Response, env: E.Env, details: nat)
    requires StopFits(e) && E.Step(e, res, env).1.Sent?
    requires e.state.AcParameters? || e.state.DcParameters?
    ensures Moves(e, E.Step(e, res, env).0, env, details)
  {
    hide E.Step;
    E.ChargeParametersStep(e, res, env);
  }

  lemma ScheduleMoves(e: E.Session, res: Response, env: E.Env, details: nat)
    requires StopFits(e) && E.Step(e, res, env).1.Sent?
    requires e.state.ScheduleExchange?
    ensures Moves(e, E.Step(e, res, env).0, env, details)
  {
    hide E.Step;
    E.ScheduleExchangeStep(e, res, env);
  }

  lemma CableCheckMoves(e: E.Session, res: Response, env: E.Env, details: nat)
    requires StopFits(e) && E.Step(e, res, env).1.Sent?
    requires e.state.CableCheck?
    ensures Moves(e, E.Step(e, res, env).0, env, details)
  {
    hide E.Step;
    E.CableCheckStep(e, res, env);
  }

  lemma PreChargeMoves(e: E.Session, res: Response, env: E.Env, details: nat)
    requires StopFits(e) && E.Step(e, res, env).1.Sent?
    requires e.state.PreCharge?
    ensures Moves(e, E.Step(e, res, env).0, env, details)
  {
    hide E.Step;
    E.PreChargeStep(e, res, env);
  }

  lemma DeliveryMoves(e: E.Session, res: Response, env: E.Env, details: nat)
    requires StopFits(e) && E.Step(e, res, env).1.Sent?
    requires e.state.PowerDelivery?
    ensures Moves(e, E.Step(e, res, env).0, env, details)
  {
    hide E.Step;
    hide E.OnPowerDelivery;
    E.PowerDeliveryStep(e, res, env);
    E.DeliveryOutcome(e, env);
  }

  lemma LoopMoves(e: E.Session, res: Response, env: E.Env, details: nat)
    requires StopFits(e) && E.Step(e, res, env).1.Sent?
    requires e.state.AcLoop? || e.state.DcLoop?
    ensures Moves(e, E.Step(e, res, env).0, env, details)
  {
    hide E.Step;
    hide E.OnLoop;
    E.LoopStep(e, res, env);
    E.LoopOutcome(e, res.body.status, env);
  }

  lemma EndSendsNothing(e: E.Session, res: Response, env: E.Env)
    requires e.state.SessionStop? || e.state.Terminated?
    ensures !E.Step(e, res, env).1.Sent?
  {
  }

  lemma WeldingMoves(e: E.Session, res: Response, env: E.Env, details: nat)
    requires StopFits(e) && E.Step(e, res, env).1.Sent?
    requires e.state.Welding?
    ensures Moves(e, E.Step(e, res, env).0, env, details)
  {
    hide E.Step;
    E.UncheckedStep(e, res, env);
  }

  lemma StepMoves(e: E.Session, res: Response, env: E.Env, details: nat)
    requires StopFits(e) && E.Step(e, res, env).1.Sent? && FewMatches(e, res, env, details)
    ensures Moves(e, E.Step(e, res, env).0, env, details)
  {
    hide Moves;
    match e.state {
      case SessionSetup => EarlyMoves(e, res, env, details);
      case AuthorizationSetup => EarlyMoves(e, res, env, details);
      case CertificateInstallation => EarlyMoves(e, res, env, details);
      case Authorization => EarlyMoves(e, res, env, details);
      case ServiceDiscovery => DiscoveryMoves(e, res, env, details);
      case ServiceDetail => DetailMoves(e, res, env, details);
      case ServiceSelection => SelectionMoves(e, res, env, details);
      case AcParameters => ParametersMove(e, res, env, details);
      case DcParameters => ParametersMove(e, res, env, details);
      case ScheduleExchange => ScheduleMoves(e, res, env, details);
      case CableCheck(_) => CableCheckMoves(e, res, env, details);
      case PreCharge(_, _) => PreChargeMoves(e, res, env, details);
      case PowerDelivery => DeliveryMoves(e, res, env, details);
      case AcLoop => LoopMoves(e, res, env, details);
      case DcLoop(_) => LoopMoves(e, res, env, details);
      case Welding(_, _) => WeldingMoves(e, res, env, details);
      case SessionStop => EndSendsNothing(e, res, env);
      case Terminated => EndSendsNothing(e, res, env);
    }
  }

  /** What a drive keeps: the machines are linked, and a car still in the loop has not been told to stop. */
  predicate Consistent(pack: Pack, d: Drive)
    requires Sane(pack)
  {
    d.joint.Running? ==>
      && LinkedOrLost(d.joint)
      && StopFits(d.joint.evcc)
      && (d.joint.evcc.state.DcLoop? ==> !Test(pack, d).ended)
  }

  lemma LinkedAgrees(j: Joint)
    requires j.Running? && LinkedOrLost(j)
    ensures E.Agrees((j.evcc, E.Sent(j.pending)))
  {
  }

  /** A car that matches few services, in a session that is not an AC session, with a station that has power to give. */
  predicate DcInput(d: Drive, input: Input, details: nat, power: real) {
    && |E.Matching(input.secc.energyServices, input.supported)| <= details
    && input.secc.maxPower >= power
    && (d.joint.Running? ==> !d.joint.evcc.state.AcLoop?)
  }

  lemma DiscoveryAnswer(j: Joint, env: S.Env)
    requires j.Running?
    ensures var answer := S.Step(j.secc, j.evcc.sid, j.pending, env).1;
      answer.Replied? && answer.res.body.ServiceDiscoveryRes? && !answer.res.failed ==> answer.res.body.energy == env.energyServices
  {
  }

  lemma DriveMoves(pack: Pack, d: Drive, input: Input, details: nat, power: real)
    requires Sane(pack) && Consistent(pack, d) && DcInput(d, input, details, power) && d.joint.Running?
    requires Next(pack, d, input).joint.Running?
    ensures Moves(d.joint.evcc, Next(pack, d, input).joint.evcc, Answers(pack, d, input), details)
  {
    hide S.Step;
    hide E.Step;
    hide Moves;
    var answer := S.Step(d.joint.secc, d.joint.evcc.sid, d.joint.pending, input.secc).1;
    DiscoveryAnswer(d.joint, input.secc);
    if answer.res.failed {
      FailedAnswerStops(d.joint.evcc, answer.res, Answers(pack, d, input));
    }
    StepMoves(d.joint.evcc, answer.res, Answers(pack, d, input), details);
  }

  lemma FailedAnswerStops(e: E.Session, res: Response, env: E.Env)
    requires res.failed && E.Step(e, res, env).1.Sent?
    ensures e.state.Welding?
  {
  }

  lemma LoopGoesOn(pack: Pack, d: Drive, input: Input, details: nat, power: real)
    requires Sane(pack) && Consistent(pack, d) && DcInput(d, input, details, power) && d.joint.Running?
    requires Next(pack, d, input).joint.Running?
    ensures Consistent(pack, Next(pack, d, input))
    ensures var d' := Next(pack, d, input);
      d.joint.evcc.state.DcLoop? && d'.joint.evcc.state.DcLoop? ==> d'.ticks == d.ticks + [input.tick]
  {
    hide JointSessions.Next;
    hide LinkedOrLost;
    DriveMoves(pack, d, input, details, power);
    StepKeepsLink(d.joint, Turn(input.secc, Answers(pack, d, input)));
    var d' := Next(pack, d, input);
    if d'.joint.evcc.state.DcLoop? {
      if d.joint.evcc.state.DcLoop? {
        assert (d.ticks + [input.tick])[..|d.ticks|] == d.ticks;
        assert Test(pack, d') == D.Cycle(pack, d.bidirectional, Test(pack, d), input.tick);
      } else {
        assert d'.ticks == [];
      }
    }
  }

  /** The loop cycles a car can take: after `cycles` of them its battery says stop. */
  predicate LoopBounded(pack: Pack, d: Drive, cycles: nat)
    requires Sane(pack)
  {
    d.joint.Running? && d.joint.evcc.state.DcLoop? && |d.ticks| >= cycles ==> Test(pack, d).ended
  }

  /** Moving on to a later phase uses up at least its rank. */
  lemma LaterPhase(d: Drive, d': Drive, env: E.Env, details: nat, cycles: nat)
    requires d.joint.Running? && d'.joint.Running?
    requires Moves(d.joint.evcc, d'.joint.evcc, env, details) && Rank(d'.joint.evcc) < Rank(d.joint.evcc)
    ensures Measure(d', details, cycles) < Measure(d, details, cycles)
  {
  }

  lemma PrechargeRepeats(pack: Pack, d: Drive, input: Input, details: nat, cycles: nat)
    requires Sane(pack) && d.joint.Running? && d.joint.evcc.state.PreCharge?
    requires Next(pack, d, input).joint.Running? && Next(pack, d, input).joint.evcc.state.PreCharge?
    requires Moves(d.joint.evcc, Next(pack, d, input).joint.evcc, Answers(pack, d, input), details)
    requires Next(pack, d, input).joint.pending.PreChargeReq?
    ensures Measure(Next(pack, d, input), details, cycles) < Measure(d, details, cycles)
  {
  }

  lemma WeldingRepeats(pack: Pack, d: Drive, input: Input, details: nat, cycles: nat)
    requires Sane(pack) && d.joint.Running? && d.joint.evcc.state.Welding?
    requires Next(pack, d, input).joint.Running? && Next(pack, d, input).joint.evcc.state.Welding?
    requires Moves(d.joint.evcc, Next(pack, d, input).joint.evcc, Answers(pack, d, input), details)
    ensures Measure(Next(pack, d, input), details, cycles) < Measure(d, details, cycles)
  {
  }

  /** The other repetitions leave the controller alone. */
  lemma OtherRepeats(d: Drive, d': Drive, env: E.Env, details: nat, cycles: nat)
    requires d.joint.Running? && d'.joint.Running? && Moves(d.joint.evcc, d'.joint.evcc, env, details)
    requires E.Agrees((d.joint.evcc, E.Sent(d.joint.pending))) && E.Agrees((d'.joint.evcc, E.Sent(d'.joint.pending)))
    requires Rank(d'.joint.evcc) == Rank(d.joint.evcc) && (d.joint.evcc.stop.Some? <==> d'.joint.evcc.stop.Some?)
    requires !d.joint.evcc.state.PreCharge? && !d.joint.evcc.state.Welding? && !d.joint.evcc.state.AcLoop?
    requires d.joint.evcc.state.DcLoop? ==> |d'.ticks| == |d.ticks| + 1 && |d'.ticks| < cycles
    ensures Measure(d', details, cycles) < Measure(d, details, cycles)
      || (Ongoing(d.joint, d'.joint) && Measure(d', details, cycles) == Measure(d, details, cycles))
  {
  }

  /** Every turn uses up the measure or is an Ongoing turn that leaves it alone. */
  lemma MeasureShrinks(pack: Pack, d: Drive, input: Input, details: nat, power: real, cycles: nat)
    requires Sane(pack) && Consistent(pack, d) && DcInput(d, input, details, power) && d.joint.Running?
    requires LoopBounded(pack, d, cycles)
    requires Next(pack, d, input).joint.Running? && LoopBounded(pack, Next(pack, d, input), cycles)
    ensures var d' := Next(pack, d, input);
      Measure(d', details, cycles) < Measure(d, details, cycles)
      || (Ongoing(d.joint, d'.joint) && Measure(d', details, cycles) == Measure(d, details, cycles))
  {
    hide JointSessions.Next;
    DriveMoves(pack, d, input, details, power);
    LoopGoesOn(pack, d, input, details, power);
    var e, env := d.joint.evcc, Answers(pack, d, input);
    var d' := Next(pack, d, input);
    LinkedAgrees(d.joint);
    LinkedAgrees(d'.joint);
    if Rank(d'.joint.evcc) < Rank(e) {
      LaterPhase(d, d', env, details, cycles);
    } else if e.state.PreCharge? {
      PrechargeRepeats(pack, d, input, details, cycles);
    } else if e.state.Welding? {
      WeldingRepeats(pack, d, input, details, cycles);
    } else {
      OtherRepeats(d, d', env, details, cycles);
    }
  }

  /** What the discovery of services, the selected energy type and the battery allow, along a whole run. */
  predicate Bounded(pack: Pack, now: real, inputs: seq<Input>, details: nat, power: real, cycles: nat)
    requires Sane(pack)
  {
    && LoopBounded(pack, Run(pack, now, inputs), cycles)
    && (inputs == [] ||
         (var n := |inputs| - 1;
          && DcInput(Run(pack, now, inputs[..n]), inputs[n], details, power)
          && Bounded(pack, now, inputs[..n], details, power, cycles)))
  }

  lemma StartIsConsistent(pack: Pack, now: real, details: nat, cycles: nat)
    requires Sane(pack)
    ensures Consistent(pack, Start(now)) && Measure(Start(now), details, cycles) <= 26 + details + cycles
  {
  }

  lemma {:induction false} RunUsesMeasure(pack: Pack, now: real, inputs: seq<Input>, details: nat, power: real, cycles: nat)
    requires Sane(pack) && Bounded(pack, now, inputs, details, power, cycles)
    ensures Consistent(pack, Run(pack, now, inputs))
    ensures Run(pack, now, inputs).joint.Running? ==>
      |inputs| + Measure(Run(pack, now, inputs), details, cycles) <= 26 + details + cycles + OngoingTurns(pack, now, inputs)
  {
    hide Next;
    hide Measure;
    if inputs == [] {
      StartIsConsistent(pack, now, details, cycles);
    } else {
      var n := |inputs| - 1;
      RunUsesMeasure(pack, now, inputs[..n], details, power, cycles);
      var before := Run(pack, now, inputs[..n]);
      if before.joint.Over? {
        OverStaysOver(pack, before, inputs[n]);
      } else if Run(pack, now, inputs).joint.Running? {
        LoopGoesOn(pack, before, inputs[n], details, power);
        MeasureShrinks(pack, before, inputs[n], details, power, cycles);
      }
    }
  }

  lemma OverStaysOver(pack: Pack, d: Drive, input: Input)
    requires Sane(pack) && d.joint.Over?
    ensures Next(pack, d, input) == d
  {
  }

  // The battery that enters the charge loop.

  /** The battery of a car that has not begun to charge: a fresh one, up to the negotiated power, the target and the activated test. */
  predicate Unused(pack: Pack, c: Control) {
    && c.charge.soc == 20.0 && c.phase.Charging? && !c.completed && 0.0 <= c.target <= 100.0 && c.cutoff == 20.0
    && (c.diagnostic ==> c.current == DischargeCurrent(pack, 20.0, 5.0, 50.0))
  }

  lemma {:induction false} ControlIsUnused(pack: Pack, now: real, inputs: seq<Input>)
    requires Sane(pack)
    ensures Unused(pack, Run(pack, now, inputs).control) && Unused(pack, Run(pack, now, inputs).begun)
  {
    if inputs != [] {
      var n := |inputs| - 1;
      ControlIsUnused(pack, now, inputs[..n]);
      ControlStaysUnused(pack, Run(pack, now, inputs[..n]), inputs[n]);
    }
  }

  lemma ControlStaysUnused(pack: Pack, d: Drive, input: Input)
    requires Sane(pack) && Unused(pack, d.control) && Unused(pack, d.begun)
    ensures Unused(pack, Next(pack, d, input).control) && Unused(pack, Next(pack, d, input).begun)
  {
    hide JointSessions.Next;
    hide Answers;
    hide ControlAfter;
    hide Unused;
    var joint := Next(pack, d, input).joint;
    if d.joint.Running? && joint.Running? {
      ControlAfterUnused(pack, d, input, joint);
    }
  }

  lemma ControlAfterUnused(pack: Pack, d: Drive, input: Input, joint: Joint)
    requires Sane(pack) && Unused(pack, d.control) && d.joint.Running? && joint.Running?
    ensures Unused(pack, ControlAfter(pack, d, input, joint))
  {
  }

  lemma TestCurrentIsPositive(pack: Pack)
    requires Sane(pack)
    ensures DischargeCurrent(pack, 20.0, 5.0, 50.0) > 0.0
  {
    assert pack.capacity / Max(Voltage(pack, 20.0), 1.0) > 0.0;
  }

  /** The least power of a charge loop: the station's, or in Dynamic mode half the car's own. */
  function LoopPower(pack: Pack, power: real): real { Min(power, 0.5 * pack.maxPower) }

  /** The limits are known and charging has not begun. */
  predicate AboutToCharge(e: E.Session) {
    !e.isAc && e.stop.None? && (e.state.ScheduleExchange? || e.state.CableCheck? || e.state.PreCharge? || e.state.PowerDelivery?)
  }

  predicate Powered(d: Drive, floor: real) {
    d.joint.Running? ==>
      && (AboutToCharge(d.joint.evcc) ==> d.control.charge.power >= floor)
      && (d.joint.evcc.state.DcLoop? ==> d.begun.charge.power >= floor)
  }

  /** What the link says about the kind of the car's session. */
  predicate KindFits(e: E.Session) {
    && (e.state.AcParameters? ==> e.isAc)
    && (e.state.DcLoop? ==> !e.isAc)
    && (e.state.PowerDelivery? ==> e.selected.Some? && if e.isAc then IsAc(e.selected.value.service) else IsDc(e.selected.value.service))
  }

  lemma LinkedKindFits(j: Joint)
    requires j.Running? && LinkedOrLost(j)
    ensures KindFits(j.evcc)
  {
  }

  /** Charging is approached from the discovery of DC parameters on only. */
  predicate Approaches(e: E.Session, e': E.Session) {
    && (AboutToCharge(e') ==> AboutToCharge(e) || e.state.DcParameters?)
    && (e'.state.DcLoop? ==> e.state.DcLoop? || (e.state.PowerDelivery? && AboutToCharge(e)))
  }

  /** In a session that is not an AC session the last stop is always a full one. */
  predicate StopsWhole(e: E.Session, req: Request) {
    && (e.state.PowerDelivery? && e.stop.Some? ==> !e.isAc)
    && (e.state.SessionStop? ==> req == SessionStopReq(ChargingSession.Terminate))
  }

  lemma SetupApproaches(e: E.Session, res: Response, env: E.Env)
    requires E.Step(e, res, env).1.Sent? && E.Early(e.state) && !e.state.ServiceDiscovery?
    ensures E.Early(E.Step(e, res, env).0.state)
  {
  }

  lemma DiscoveryApproaches(e: E.Session, res: Response, env: E.Env)
    requires E.Step(e, res, env).1.Sent? && e.state.ServiceDiscovery?
    ensures Approaches(e, E.Step(e, res, env).0) && StopsWhole(E.Step(e, res, env).0, E.Step(e, res, env).1.req)
  {
    hide E.Step;
    hide E.OnServiceDiscovery;
    E.ServiceDiscoveryStep(e, res, env);
    DiscoveryStops(e, res.body.renegotiation, res.body.energy, res.body.vas, env);
  }

  lemma DetailApproaches(e: E.Session, res: Response, env: E.Env)
    requires E.Step(e, res, env).1.Sent? && e.state.ServiceDetail?
    ensures Approaches(e, E.Step(e, res, env).0) && StopsWhole(E.Step(e, res, env).0, E.Step(e, res, env).1.req)
  {
    hide E.Step;
    hide E.AfterDetail;
    E.ServiceDetailStep(e, res, env);
    DetailOutcome(e.(matched := E.StoreAll(e.matched, res.body.service, res.body.sets)), env);
  }

  lemma SelectionApproaches(e: E.Session, res: Response, env: E.Env)
    requires E.Step(e, res, env).1.Sent? && e.state.ServiceSelection?
    ensures Approaches(e, E.Step(e, res, env).0) && StopsWhole(E.Step(e, res, env).0, E.Step(e, res, env).1.req)
  {
    hide E.Step;
    E.ServiceSelectionStep(e, res, env);
  }

  lemma DiscoveryStops(e: E.Session, renegotiation: bool, energy: seq<Service>, vas: seq<Service>, env: E.Env)
    ensures var (e', out) := E.OnServiceDiscovery(e, renegotiation, energy, vas, env);
      out.Sent? ==> e'.state.ServiceDetail? || (e'.state.SessionStop? && out.req == SessionStopReq(ChargingSession.Terminate))
  {
  }

  lemma PreparingApproaches(e: E.Session, res: Response, env: E.Env)
    requires E.Step(e, res, env).1.Sent? && KindFits(e) && StopFits(e)
    requires e.state.AcParameters? || e.state.DcParameters? || e.state.ScheduleExchange? || e.state.CableCheck? || e.state.PreCharge?
    ensures Approaches(e, E.Step(e, res, env).0) && StopsWhole(E.Step(e, res, env).0, E.Step(e, res, env).1.req)
  {
    hide E.Step;
    if e.state.AcParameters? || e.state.DcParameters? {
      E.ChargeParametersStep(e, res, env);
    } else if e.state.ScheduleExchange? {
      E.ScheduleExchangeStep(e, res, env);
    } else if e.state.CableCheck? {
      E.CableCheckStep(e, res, env);
    } else {
      E.PreChargeStep(e, res, env);
    }
  }

  lemma DeliveryApproaches(e: E.Session, res: Response, env: E.Env)
    requires E.Step(e, res, env).1.Sent? && KindFits(e) && StopFits(e) && e.state.PowerDelivery? && (e.stop.Some? ==> !e.isAc)
    ensures Approaches(e, E.Step(e, res, env).0) && StopsWhole(E.Step(e, res, env).0, E.Step(e, res, env).1.req)
  {
    hide E.Step;
    hide E.OnPowerDelivery;
    E.PowerDeliveryStep(e, res, env);
    E.DeliveryOutcome(e, env);
  }

  lemma ChargingApproaches(e: E.Session, res: Response, env: E.Env)
    requires E.Step(e, res, env).1.Sent? && KindFits(e)
    requires e.state.DcLoop? || e.state.Welding? || e.state.SessionStop?
    ensures Approaches(e, E.Step(e, res, env).0) && StopsWhole(E.Step(e, res, env).0, E.Step(e, res, env).1.req)
  {
    hide E.Step;
    if e.state.DcLoop? {
      E.LoopStep(e, res, env);
    } else if e.state.Welding? {
      E.UncheckedStep(e, res, env);
    } else {
      E.SessionStopStep(e, res, env);
    }
  }

  lemma StepApproaches(e: E.Session, res: Response, env: E.Env)
    requires E.Step(e, res, env).1.Sent? && KindFits(e) && StopFits(e) && !e.state.AcLoop?
    requires e.state.PowerDelivery? && e.stop.Some? ==> !e.isAc
    ensures Approaches(e, E.Step(e, res, env).0) && StopsWhole(E.Step(e, res, env).0, E.Step(e, res, env).1.req)
  {
    hide E.Step;
    if E.Early(e.state) && !e.state.ServiceDiscovery? {
      SetupApproaches(e, res, env);
    } else if e.state.Terminated? {
      EndSendsNothing(e, res, env);
    } else {
      LaterApproaches(e, res, env);
    }
  }

  lemma LaterApproaches(e: E.Session, res: Response, env: E.Env)
    requires E.Step(e, res, env).1.Sent? && KindFits(e) && StopFits(e) && !e.state.AcLoop?
    requires e.state.PowerDelivery? && e.stop.Some? ==> !e.isAc
    requires (E.Early(e.state) ==> e.state.ServiceDiscovery?) && !e.state.Terminated?
    ensures Approaches(e, E.Step(e, res, env).0) && StopsWhole(E.Step(e, res, env).0, E.Step(e, res, env).1.req)
  {
    hide E.Step;
    hide Approaches;
    hide StopsWhole;
    if e.state.ServiceDiscovery? {
      DiscoveryApproaches(e, res, env);
    } else if e.state.ServiceDetail? {
      DetailApproaches(e, res, env);
    } else if e.state.ServiceSelection? {
      SelectionApproaches(e, res, env);
    } else if e.state.PowerDelivery? {
      DeliveryApproaches(e, res, env);
    } else if e.state.DcLoop? || e.state.Welding? || e.state.SessionStop? {
      ChargingApproaches(e, res, env);
    } else {
      PreparingApproaches(e, res, env);
    }
  }

  lemma NegotiatedPower(pack: Pack, c: Control, mode: Option<ControlMode>, hints: Hints, ready: bool, power: real)
    requires Sane(pack) && c.charge.power >= LoopPower(pack, power)
    ensures Negotiated(pack, c, mode, hints, ready).charge.power >= LoopPower(pack, power)
  {
    DynamicPowerBounds(pack, hints);
  }

  lemma ControlKeepsPower(pack: Pack, d: Drive, input: Input, joint: Joint, power: real)
    requires Sane(pack) && d.joint.Running? && joint.Running? && input.secc.maxPower >= power
    requires Powered(d, LoopPower(pack, power)) && Approaches(d.joint.evcc, joint.evcc)
    ensures AboutToCharge(joint.evcc) || (joint.evcc.state.DcLoop? && !d.joint.evcc.state.DcLoop?) ==>
      ControlAfter(pack, d, input, joint).charge.power >= LoopPower(pack, power)
  {
    hide Negotiated;
    var mode, ready := d.joint.evcc.mode, input.profileReady;
    if AboutToCharge(d.joint.evcc) {
      NegotiatedPower(pack, d.control, mode, input.hints, ready, power);
      NegotiatedPower(pack, d.control, mode, d.hints, ready, power);
      NegotiatedPower(pack, Precharged(d.control, input.secc.evseVoltage, input.evVoltage).0, mode, d.hints, ready, power);
    }
  }

  /** The car's reaction in one turn of a drive. */
  lemma DriveReaction(pack: Pack, d: Drive, input: Input)
    requires Sane(pack) && d.joint.Running? && Next(pack, d, input).joint.Running?
    ensures var answer, joint := S.Step(d.joint.secc, d.joint.evcc.sid, d.joint.pending, input.secc).1, Next(pack, d, input).joint;
      answer.Replied? && E.Step(d.joint.evcc, answer.res, Answers(pack, d, input)) == (joint.evcc, E.Sent(joint.pending))
  {
    hide S.Step;
    hide E.Step;
    hide Answers;
  }

  predicate RunsWhole(d: Drive) { d.joint.Running? ==> StopsWhole(d.joint.evcc, d.joint.pending) }

  lemma StepKeepsPower(pack: Pack, d: Drive, input: Input, details: nat, power: real)
    requires Sane(pack) && Consistent(pack, d) && DcInput(d, input, details, power) && d.joint.Running?
    requires Powered(d, LoopPower(pack, power)) && RunsWhole(d)
    ensures Powered(Next(pack, d, input), LoopPower(pack, power)) && RunsWhole(Next(pack, d, input))
  {
    hide JointSessions.Next;
    hide E.Step;
    hide S.Step;
    hide Answers;
    var d' := Next(pack, d, input);
    if d'.joint.Running? {
      LinkedKindFits(d.joint);
      DriveReaction(pack, d, input);
      StepApproaches(d.joint.evcc, S.Step(d.joint.secc, d.joint.evcc.sid, d.joint.pending, input.secc).1.res, Answers(pack, d, input));
      ControlKeepsPower(pack, d, input, d'.joint, power);
    }
  }

  /** Both sides have ended, unless the car stopped for its own reasons while the station was waiting, or one side raised an exception. */
  predicate EndedWell(j: Joint) {
    j.Over? && match j.ending
      case Completed => j.evcc.state.Terminated? && j.secc.state.Terminated?
      case EvccStopped => j.evcc.state.Terminated? && (j.secc.state.Terminated? || LeftWaiting(j.secc.state))
      case EvccRaised => j.evcc.state.Terminated?
      case SeccRaised => j.secc.state.Terminated?
  }

  lemma LastTurnEndsWell(pack: Pack, d: Drive, input: Input)
    requires Sane(pack) && Consistent(pack, d) && d.joint.Running? && RunsWhole(d) && Next(pack, d, input).joint.Over?
    ensures EndedWell(Next(pack, d, input).joint)
  {
    hide JointSessions.Next;
    hide Answers;
    LinkedAgrees(d.joint);
    EndOfStep(d.joint, Turn(input.secc, Answers(pack, d, input)));
  }

  /** What a run of a DC session keeps besides its measure. */
  lemma {:induction false} RunKeepsPower(pack: Pack, now: real, inputs: seq<Input>, details: nat, power: real, cycles: nat)
    requires Sane(pack) && Bounded(pack, now, inputs, details, power, cycles)
    ensures var d := Run(pack, now, inputs);
      Powered(d, LoopPower(pack, power)) && RunsWhole(d) && (d.joint.Over? ==> EndedWell(d.joint))
  {
    hide Next;
    if inputs == [] {
      StartIsConsistent(pack, now, details, cycles);
    } else {
      var n := |inputs| - 1;
      var before := Run(pack, now, inputs[..n]);
      RunKeepsPower(pack, now, inputs[..n], details, power, cycles);
      if before.joint.Over? {
        OverStaysOver(pack, before, inputs[n]);
      } else {
        RunUsesMeasure(pack, now, inputs[..n], details, power, cycles);
        StepKeepsPower(pack, before, inputs[n], details, power);
        if Run(pack, now, inputs).joint.Over? {
          LastTurnEndsWell(pack, before, inputs[n]);
        }
      }
    }
  }

  // How many cycles the loop can take.

  /** In the loop, every cycle takes at least `lo` seconds. */
  predicate LoopPaced(d: Drive, lo: real) {
    d.joint.Running? && d.joint.evcc.state.DcLoop? ==> D.Paced(d.begunAt, d.ticks, lo)
  }

  /**
   The battery ends the loop after a number of cycles, with or without the test, whatever the
   service and the control mode: `n` cycles at the least power carry more than a full battery,
   `m` cycles of the test's discharge more than the way from 100 percent to its cutoff.
   */
  lemma LoopIsBounded(pack: Pack, d: Drive, lo: real, power: real, n: nat, m: nat)
    requires Sane(pack) && Unused(pack, d.begun) && LoopPaced(d, lo) && Powered(d, power)
    requires lo >= 2.0 * MinStep && power > 0.0
    requires Allowance(n, D.PerCycle(pack, power, lo)) > 100.0
    requires Allowance(m, D.Fall(pack, DischargeCurrent(pack, 20.0, 5.0, 50.0), lo)) > 80.0
    ensures LoopBounded(pack, d, n + m + 2)
  {
    if d.joint.Running? && d.joint.evcc.state.DcLoop? && |d.ticks| >= n + m + 2 {
      D.PerCycleIsMonotone(pack, power, d.begun.charge.power, lo);
      AllowanceIsMonotone(n, D.PerCycle(pack, power, lo), D.PerCycle(pack, d.begun.charge.power, lo));
      TestCurrentIsPositive(pack);
      if d.begun.diagnostic {
        D.TestEnds(pack, d.bidirectional, d.begun, d.begunAt, d.ticks, lo, n, m);
      } else {
        D.PlainEnds(pack, d.bidirectional, d.begun, d.begunAt, d.ticks, lo, n);
      }
    }
  }

  lemma AllowanceIsMonotone(n: nat, a: real, b: real)
    requires a <= b
    ensures Allowance(n, a) <= Allowance(n, b)
  {
  }

  /** A DC run: few matched services, no AC loop, a paced loop and a station with at least the given power. */
  predicate DcRun(pack: Pack, now: real, inputs: seq<Input>, details: nat, lo: real, power: real)
    requires Sane(pack)
  {
    && LoopPaced(Run(pack, now, inputs), lo)
    && (inputs == [] ||
         (var n := |inputs| - 1;
          && DcInput(Run(pack, now, inputs[..n]), inputs[n], details, power)
          && DcRun(pack, now, inputs[..n], details, lo, power)))
  }

  lemma {:induction false} DcRunIsBounded(pack: Pack, now: real, inputs: seq<Input>, details: nat, lo: real, power: real, n: nat, m: nat)
    requires Sane(pack) && DcRun(pack, now, inputs, details, lo, power) && lo >= 2.0 * MinStep && power > 0.0
    requires Allowance(n, D.PerCycle(pack, LoopPower(pack, power), lo)) > 100.0
    requires Allowance(m, D.Fall(pack, DischargeCurrent(pack, 20.0, 5.0, 50.0), lo)) > 80.0
    ensures Bounded(pack, now, inputs, details, power, n + m + 2)
  {
    hide Next;
    ControlIsUnused(pack, now, inputs);
    if inputs == [] {
      StartIsConsistent(pack, now, details, n + m + 2);
    } else {
      var last := |inputs| - 1;
      var before := Run(pack, now, inputs[..last]);
      DcRunIsBounded(pack, now, inputs[..last], details, lo, power, n, m);
      RunKeepsPower(pack, now, inputs[..last], details, power, n + m + 2);
      RunUsesMeasure(pack, now, inputs[..last], details, power, n + m + 2);
      if before.joint.Running? {
        StepKeepsPower(pack, before, inputs[last], details, power);
      } else {
        OverStaysOver(pack, before, inputs[last]);
      }
      LoopIsBounded(pack, Run(pack, now, inputs), lo, LoopPower(pack, power), n, m);
    }
  }

  /**
   Every joint DC run ends, and ends well. With a station that has power to give, cycles that
   take at least `lo` seconds and `g` turns lost to Ongoing answers it is over after
   28 + details + n + m + g exchanges at the latest, where `n` cycles at the least power carry
   more than a full battery and `m` cycles of the test's discharge carry more than the way
   from 100 percent to its cutoff. A completed session has ended on both sides.
   */
  lemma DcRunEnds(pack: Pack, now: real, inputs: seq<Input>, details: nat, lo: real, power: real, n: nat, m: nat, g: nat)
    requires Sane(pack) && DcRun(pack, now, inputs, details, lo, power) && lo >= 2.0 * MinStep && power > 0.0
    requires Allowance(n, D.PerCycle(pack, LoopPower(pack, power), lo)) > 100.0
    requires Allowance(m, D.Fall(pack, DischargeCurrent(pack, 20.0, 5.0, 50.0), lo)) > 80.0
    requires OngoingTurns(pack, now, inputs) <= g
    requires |inputs| >= 28 + details + n + m + g
    ensures EndedWell(Run(pack, now, inputs).joint)
  {
    DcRunIsBounded(pack, now, inputs, details, lo, power, n, m);
    RunUsesMeasure(pack, now, inputs, details, power, n + m + 2);
    RunKeepsPower(pack, now, inputs, details, power, n + m + 2);
    var d := Run(pack, now, inputs);
    if d.joint.Running? {
      LinkedAgrees(d.joint);
      RankIsPositive(d, details, n + m + 2);
    }
  }

  lemma RankIsPositive(d: Drive, details: nat, cycles: nat)
    requires d.joint.Running? && !d.joint.evcc.state.Terminated?
    ensures Measure(d, details, cycles) >= 1
  {
  }
}
