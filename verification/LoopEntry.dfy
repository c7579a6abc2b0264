/**
 With what the car enters the charge loop of a joint DC run, and when an ordinary loop ends,
 in terms of what the surroundings answered along the run.
 */
module LoopEntry {
  import opened Options
  import opened Messages
  import opened Battery
  import opened BatteryControl
  import opened JointSessions
  import opened Termination
  import D = Diagnostic
  import E = EvccProtocol
  import S = SeccProtocol

  /**
   The station's power at the discovery of DC parameters, the hints of the last schedule
   exchange, whether a service selection named the services of a configured test, how often
   the precharge test failed - it is asked for the end of the precharge and, unless that has
   come, once more for the next request - and the welding answers so far.
   */
  datatype Brief = Brief(maxPower: Option<real>, hints: Hints, tested: bool, misses: nat, weldings: nat)

  function Heard(b: Brief, e: E.Session, input: Input, next: Request): Brief {
    match e.state
    case ServiceDetail =>
      b.(tested := b.tested || (next.ServiceSelectionReq? && input.diagnostic.Some? && next.vas != []))
    case DcParameters => b.(maxPower := Some(input.secc.maxPower))
    case ScheduleExchange => b.(hints := input.hints)
    case PreCharge(_, _) =>
      if input.secc.evseVoltage == input.evVoltage then b
      else b.(misses := b.misses + if next.PreChargeReq? then 2 else 1)
    case Welding(complete, _) => if complete then b else b.(weldings := b.weldings + 1)
    case _ => b
  }

  function BriefOf(pack: Pack, now: real, inputs: seq<Input>): Brief
    requires Sane(pack)
  {
    if inputs == [] then Brief(None, Hints(None, None), false, 0, 0)
    else
      var n := |inputs| - 1;
      var b, before, after := BriefOf(pack, now, inputs[..n]), Termination.Run(pack, now, inputs[..n]).joint, Termination.Run(pack, now, inputs).joint;
      if before.Over? || after.Over? then b else Heard(b, before.evcc, inputs[n], after.pending)
  }

  /** The target of a Dynamic session is the hint of the last schedule exchange, if it gave one; otherwise 90 percent. */
  function TargetOf(mode: Option<ControlMode>, hints: Hints): real {
    if mode != Some(Scheduled) && hints.targetSoc.Some? then hints.targetSoc.value as real else 90.0
  }

  /** Scheduled: the smaller of the station's and the car's limit; Dynamic: what the price level leaves of the car's own. */
  function PowerOf(pack: Pack, mode: Option<ControlMode>, b: Brief): real
    requires b.maxPower.Some?
  {
    if mode == Some(Scheduled) then Min(b.maxPower.value, pack.maxPower) else DynamicPower(pack, b.hints)
  }

  /** The test is activated with a 5C discharge, at most 50 A and the battery's own limit, down to 20 percent. */
  predicate TestFits(pack: Pack, c: Control, tested: bool) {
    && (c.diagnostic <==> tested)
    && (tested ==>
         && c.cutoff == 20.0
         && c.current <= 50.0 && c.current <= pack.maxCurrent && c.current <= 5.0 * (pack.capacity / Max(Voltage(pack, 20.0), 1.0))
         && (c.current == 50.0 || c.current == pack.maxCurrent || c.current == 5.0 * (pack.capacity / Max(Voltage(pack, 20.0), 1.0))))
  }

  /** Neither charged nor negotiated yet. */
  predicate Idle(pack: Pack, c: Control, b: Brief) {
    c.charge.soc == 20.0 && c.phase.Charging? && !c.completed && TestFits(pack, c, b.tested)
  }

  predicate Limited(pack: Pack, c: Control, b: Brief) {
    && b.maxPower.Some? && c.seccPower == Some(Min(b.maxPower.value, pack.maxPower))
    && c.target == 90.0 && c.charge.power == Min(b.maxPower.value, pack.maxPower)
  }

  predicate Agreed(pack: Pack, c: Control, mode: Option<ControlMode>, b: Brief) {
    && b.maxPower.Some? && c.seccPower == Some(Min(b.maxPower.value, pack.maxPower))
    && c.target == TargetOf(mode, b.hints) && c.charge.power == PowerOf(pack, mode, b)
  }

  /** A bidirectional DC service in Scheduled mode: the test then discharges by request. */
  predicate DischargesOnRequest(e: E.Session) {
    e.selected.Some? && e.selected.value.service == DcBpt && e.mode == Some(Scheduled)
  }

  predicate BeforeLimits(state: E.State) {
    E.Early(state) || state.ServiceDetail? || state.ServiceSelection? || state.AcParameters? || state.DcParameters?
  }

  predicate Told(pack: Pack, d: Drive, b: Brief)
    requires d.joint.Running?
  {
    var e, c := d.joint.evcc, d.control;
    && Idle(pack, c, b) && d.hints == b.hints 
    && c.weldingCycles == (if b.weldings <= 3 then b.weldings else 3)
    && c.prechargeCycles == (if b.misses <= 5 then b.misses else 5)
    && (BeforeLimits(e.state) ==> c.target == 90.0)
    && (e.isAc ||
         (&& (e.state.ScheduleExchange? ==> Limited(pack, c, b))
          && (e.state.CableCheck? || e.state.PreCharge? || (e.state.PowerDelivery? && e.stop.None? && e.evProcessing.Ongoing?) ==>
               Limited(pack, c, b) || Agreed(pack, c, e.mode, b))
          && (e.state.PowerDelivery? && e.stop.None? && !e.evProcessing.Ongoing? ==> Agreed(pack, c, e.mode, b))))
    && (e.state.DcLoop? ==> Agreed(pack, d.begun, e.mode, b) && Idle(pack, d.begun, b) && (d.bidirectional <==> DischargesOnRequest(e)))
  }

  /** A turn after which the session goes on, in terms of the car's reaction. */
  predicate GoesOn(pack: Pack, d: Drive, input: Input)
    requires Sane(pack)
  {
    && d.joint.Running? && Termination.Next(pack, d, input).joint.Running?
    && LinkedOrLost(d.joint) && LinkedOrLost(Termination.Next(pack, d, input).joint)
    && StopFits(d.joint.evcc)
  }

  lemma DriveAfter(pack: Pack, d: Drive, input: Input)
    requires Sane(pack) && GoesOn(pack, d, input)
    ensures var d' := Termination.Next(pack, d, input);
      var e, e' := d.joint.evcc, d'.joint.evcc;
      && d'.control == ControlAfter(pack, d, input, d'.joint)
      && d'.hints == (if e.state.ScheduleExchange? then input.hints else d.hints)
      && (if e'.state.DcLoop? && !e.state.DcLoop? then d'.begun == d'.control && d'.bidirectional == Bidirectional(e')
          else d'.begun == d.begun && d'.bidirectional == d.bidirectional)
      && KindFits(e) && KindFits(e') && (e.state.DcParameters? ==> !e.isAc)
      && E.Agrees((e, E.Sent(d.joint.pending))) && E.Agrees((e', E.Sent(d'.joint.pending)))
  {
    hide JointSessions.Next;
    LinkedKindFits(d.joint);
    LinkedKindFits(Termination.Next(pack, d, input).joint);
    LinkedAgrees(d.joint);
    LinkedAgrees(Termination.Next(pack, d, input).joint);
    DcParametersFit(d.joint);
  }

  lemma DcParametersFit(j: Joint)
    requires j.Running? && LinkedOrLost(j)
    ensures j.evcc.state.DcParameters? ==> !j.evcc.isAc
  {
  }

  function Response(d: Drive, input: Input): S.Outcome
    requires d.joint.Running?
  {
    S.Step(d.joint.secc, d.joint.evcc.sid, d.joint.pending, input.secc).1
  }

  predicate ToldAfter(pack: Pack, d: Drive, input: Input, b: Brief)
    requires Sane(pack) && GoesOn(pack, d, input)
  {
    var d' := Termination.Next(pack, d, input);
    Told(pack, d', Heard(b, d.joint.evcc, input, d'.joint.pending))
  }

  lemma SetupTells(pack: Pack, d: Drive, input: Input, b: Brief)
    requires Sane(pack) && GoesOn(pack, d, input) && Told(pack, d, b)
    requires E.Early(d.joint.evcc.state) && !d.joint.evcc.state.ServiceDiscovery?
    ensures ToldAfter(pack, d, input, b)
  {
    hide JointSessions.Next;
    hide Termination.Next;
    hide E.Step;
    hide S.Step;
    hide LinkedOrLost;
    hide Answers;
    hide DynamicPower;
    DriveAfter(pack, d, input);
    DriveReaction(pack, d, input);
    var e, res, env := d.joint.evcc, Response(d, input).res, Answers(pack, d, input);
    SetupApproaches(e, res, env);
  }

  lemma DiscoveryTells(pack: Pack, d: Drive, input: Input, b: Brief)
    requires Sane(pack) && GoesOn(pack, d, input) && Told(pack, d, b)
    requires d.joint.evcc.state.ServiceDiscovery?
    ensures ToldAfter(pack, d, input, b)
  {
    hide JointSessions.Next;
    hide Termination.Next;
    hide E.Step;
    hide S.Step;
    hide LinkedOrLost;
    hide Answers;
    hide DynamicPower;
    hide E.OnServiceDiscovery;
    DriveAfter(pack, d, input);
    DriveReaction(pack, d, input);
    var e, res, env := d.joint.evcc, Response(d, input).res, Answers(pack, d, input);
    E.ServiceDiscoveryStep(e, res, env);
    DiscoveryOutcome(e, res.body.renegotiation, res.body.energy, res.body.vas, env);
  }

  lemma DetailTells(pack: Pack, d: Drive, input: Input, b: Brief)
    requires Sane(pack) && GoesOn(pack, d, input) && Told(pack, d, b)
    requires d.joint.evcc.state.ServiceDetail?
    ensures ToldAfter(pack, d, input, b)
  {
    hide JointSessions.Next;
    hide Termination.Next;
    hide E.Step;
    hide S.Step;
    hide LinkedOrLost;
    hide Answers;
    hide DynamicPower;
    hide E.AfterDetail;
    DriveAfter(pack, d, input);
    DriveReaction(pack, d, input);
    var e, res, env := d.joint.evcc, Response(d, input).res, Answers(pack, d, input);
    E.ServiceDetailStep(e, res, env);
    DetailOutcome(e.(matched := E.StoreAll(e.matched, res.body.service, res.body.sets)), env);
    TestActivated(pack, d.control);
  }

  lemma SelectionTells(pack: Pack, d: Drive, input: Input, b: Brief)
    requires Sane(pack) && GoesOn(pack, d, input) && Told(pack, d, b)
    requires d.joint.evcc.state.ServiceSelection?
    ensures ToldAfter(pack, d, input, b)
  {
    hide JointSessions.Next;
    hide Termination.Next;
    hide E.Step;
    hide S.Step;
    hide LinkedOrLost;
    hide Answers;
    hide DynamicPower;
    DriveAfter(pack, d, input);
    DriveReaction(pack, d, input);
    var e, res, env := d.joint.evcc, Response(d, input).res, Answers(pack, d, input);
    E.ServiceSelectionStep(e, res, env);
  }

  lemma ParametersTell(pack: Pack, d: Drive, input: Input, b: Brief)
    requires Sane(pack) && GoesOn(pack, d, input) && Told(pack, d, b)
    requires d.joint.evcc.state.AcParameters? || d.joint.evcc.state.DcParameters?
    ensures ToldAfter(pack, d, input, b)
  {
    hide JointSessions.Next;
    hide Termination.Next;
    hide E.Step;
    hide S.Step;
    hide LinkedOrLost;
    hide Answers;
    hide DynamicPower;
    DriveAfter(pack, d, input);
    DriveReaction(pack, d, input);
    var e, res, env := d.joint.evcc, Response(d, input).res, Answers(pack, d, input);
    E.ChargeParametersStep(e, res, env);
  }

  /** A schedule exchange is repeated or leads on, by the kind of the session. */
  lemma ScheduleOutcome(e: E.Session, processing: Processing, offer: E.Offer, env: E.Env)
    ensures var (e', out) := E.OnScheduleExchange(e, processing, offer, env);
      out.Sent? ==>
        && e'.mode == e.mode && e'.isAc == e.isAc && e'.stop == e.stop
        && if out.req.ScheduleExchangeReq? then e'.state.ScheduleExchange?
           else if e.isAc then e'.state.PowerDelivery? else e'.state.CableCheck?
  {
  }

  lemma ScheduleTells(pack: Pack, d: Drive, input: Input, b: Brief)
    requires Sane(pack) && GoesOn(pack, d, input) && Told(pack, d, b)
    requires d.joint.evcc.state.ScheduleExchange?
    ensures ToldAfter(pack, d, input, b)
  {
    hide JointSessions.Next;
    hide Termination.Next;
    hide E.Step;
    hide S.Step;
    hide LinkedOrLost;
    hide Answers;
    hide E.OnScheduleExchange;
    hide DynamicPower;
    DriveAfter(pack, d, input);
    DriveReaction(pack, d, input);
    var e, res, env := d.joint.evcc, Response(d, input).res, Answers(pack, d, input);
    E.ScheduleExchangeStep(e, res, env);
    ScheduleOutcome(e, res.body.processing, E.Offer(res.body.tuples, res.body.goToPause), env);
  }

  lemma CableCheckTells(pack: Pack, d: Drive, input: Input, b: Brief)
    requires Sane(pack) && GoesOn(pack, d, input) && Told(pack, d, b)
    requires d.joint.evcc.state.CableCheck?
    ensures ToldAfter(pack, d, input, b)
  {
    hide JointSessions.Next;
    hide Termination.Next;
    hide E.Step;
    hide S.Step;
    hide LinkedOrLost;
    hide Answers;
    hide DynamicPower;
    DriveAfter(pack, d, input);
    DriveReaction(pack, d, input);
    var e, res, env := d.joint.evcc, Response(d, input).res, Answers(pack, d, input);
    E.CableCheckStep(e, res, env);
  }

  /** The precharge goes on or leads to a power delivery, which is ongoing while the car's profile is not ready. */
  lemma PreChargeOutcome(e: E.Session, env: E.Env)
    requires e.state.PreCharge?
    ensures var (e', out) := E.OnPreCharge(e, env);
      out.Sent? ==>
        && E.Same(e, e') && e'.stop == e.stop
        && if out.req.PreChargeReq? then e'.state.PreCharge?
           else e'.state.PowerDelivery? && (e'.evProcessing.Ongoing? <==> !env.profileReady)
  {
  }

  lemma AskedOnce(c: Control, evseVoltage: real, evVoltage: real)
    ensures Precharged(c, evseVoltage, evVoltage).0 ==
      c.(prechargeCycles := if c.prechargeCycles >= 5 || evseVoltage == evVoltage then c.prechargeCycles else c.prechargeCycles + 1)
  {
  }

  lemma PreChargeTells(pack: Pack, d: Drive, input: Input, b: Brief)
    requires Sane(pack) && GoesOn(pack, d, input) && Told(pack, d, b)
    requires d.joint.evcc.state.PreCharge?
    ensures ToldAfter(pack, d, input, b)
  {
    hide JointSessions.Next;
    hide Termination.Next;
    hide E.Step;
    hide S.Step;
    hide LinkedOrLost;
    hide Answers;
    hide E.OnPreCharge;
    hide DynamicPower;
    DriveAfter(pack, d, input);
    DriveReaction(pack, d, input);
    var e, res, env := d.joint.evcc, Response(d, input).res, Answers(pack, d, input);
    AskedOnce(d.control, input.secc.evseVoltage, input.evVoltage);
    AskedOnce(Precharged(d.control, input.secc.evseVoltage, input.evVoltage).0, input.secc.evseVoltage, input.evVoltage);
    hide Precharged;
    ProfileAnswer(pack, d, input);
    E.PreChargeStep(e, res, env);
    PreChargeOutcome(e, env);
  }

  lemma DeliveryTells(pack: Pack, d: Drive, input: Input, b: Brief)
    requires Sane(pack) && GoesOn(pack, d, input) && Told(pack, d, b)
    requires d.joint.evcc.state.PowerDelivery?
    ensures ToldAfter(pack, d, input, b)
  {
    hide JointSessions.Next;
    hide Termination.Next;
    hide E.Step;
    hide S.Step;
    hide LinkedOrLost;
    hide Answers;
    hide DynamicPower;
    hide E.LeaveLoop;
    hide E.EnterLoop;
    DriveAfter(pack, d, input);
    DriveReaction(pack, d, input);
    var e, res, env := d.joint.evcc, Response(d, input).res, Answers(pack, d, input);
    ProfileAnswer(pack, d, input);
    E.PowerDeliveryStep(e, res, env);
    E.DeliveryOutcome(e, env);
  }

  lemma LoopTells(pack: Pack, d: Drive, input: Input, b: Brief)
    requires Sane(pack) && GoesOn(pack, d, input) && Told(pack, d, b)
    requires d.joint.evcc.state.AcLoop? || d.joint.evcc.state.DcLoop?
    ensures ToldAfter(pack, d, input, b)
  {
    hide JointSessions.Next;
    hide Termination.Next;
    hide E.Step;
    hide S.Step;
    hide LinkedOrLost;
    hide Answers;
    hide DynamicPower;
    hide E.OnLoop;
    DriveAfter(pack, d, input);
    DriveReaction(pack, d, input);
    var e, res, env := d.joint.evcc, Response(d, input).res, Answers(pack, d, input);
    E.LoopStep(e, res, env);
    E.LoopOutcome(e, res.body.status, env);
  }

  lemma EndTells(pack: Pack, d: Drive, input: Input, b: Brief)
    requires Sane(pack) && GoesOn(pack, d, input) && Told(pack, d, b)
    requires d.joint.evcc.state.Welding? || d.joint.evcc.state.SessionStop? || d.joint.evcc.state.Terminated?
    ensures ToldAfter(pack, d, input, b)
  {
    hide JointSessions.Next;
    hide Termination.Next;
    hide E.Step;
    hide S.Step;
    hide LinkedOrLost;
    hide Answers;
    hide DynamicPower;
    DriveAfter(pack, d, input);
    DriveReaction(pack, d, input);
    var e, res, env := d.joint.evcc, Response(d, input).res, Answers(pack, d, input);
    if e.state.SessionStop? {
      E.SessionStopStep(e, res, env);
    } else {
      E.UncheckedStep(e, res, env);
    }
  }

  lemma ProfileAnswer(pack: Pack, d: Drive, input: Input)
    requires Sane(pack)
    ensures Answers(pack, d, input).profileReady == input.profileReady
  {
  }

  lemma TestActivated(pack: Pack, c: Control)
    requires Sane(pack) && c.charge.soc == 20.0
    ensures TestFits(pack, Activated(pack, c, 5.0, 50.0, 20.0), true)
  {
  }

  lemma StepTells(pack: Pack, d: Drive, input: Input, b: Brief)
    requires Sane(pack) && GoesOn(pack, d, input) && Told(pack, d, b)
    ensures ToldAfter(pack, d, input, b)
  {
    hide ToldAfter;
    hide GoesOn;
    hide Told;
    GoesOnFrom(pack, d, input);
    match d.joint.evcc.state
    case ServiceDiscovery => DiscoveryTells(pack, d, input, b);
    case ServiceDetail => DetailTells(pack, d, input, b);
    case ServiceSelection => SelectionTells(pack, d, input, b);
    case AcParameters => ParametersTell(pack, d, input, b);
    case DcParameters => ParametersTell(pack, d, input, b);
    case ScheduleExchange => ScheduleTells(pack, d, input, b);
    case CableCheck(_) => CableCheckTells(pack, d, input, b);
    case PreCharge(_, _) => PreChargeTells(pack, d, input, b);
    case PowerDelivery => DeliveryTells(pack, d, input, b);
    case AcLoop => LoopTells(pack, d, input, b);
    case DcLoop(_) => LoopTells(pack, d, input, b);
    case Welding(_, _) => EndTells(pack, d, input, b);
    case SessionStop => EndTells(pack, d, input, b);
    case Terminated => EndTells(pack, d, input, b);
    case _ => SetupTells(pack, d, input, b);
  }

  lemma GoesOnFrom(pack: Pack, d: Drive, input: Input)
    requires Sane(pack) && GoesOn(pack, d, input)
    ensures d.joint.Running?
  {
  }

  /** The turns of a drive, as the joint machines see them. */
  lemma {:induction false} DriveIsLinked(pack: Pack, now: real, inputs: seq<Input>)
    requires Sane(pack)
    ensures var d := Termination.Run(pack, now, inputs);
      LinkedOrLost(d.joint) && (d.joint.Running? ==> StopFits(d.joint.evcc))
  {
    hide JointSessions.Next;
    hide LinkedOrLost;
    if inputs == [] {
      StartIsConsistent(pack, now, 0, 0);
    } else {
      var n := |inputs| - 1;
      var d := Termination.Run(pack, now, inputs[..n]);
      DriveIsLinked(pack, now, inputs[..n]);
      StepKeepsLink(d.joint, Turn(inputs[n].secc, Answers(pack, d, inputs[n])));
      if d.joint.Running? && Termination.Run(pack, now, inputs).joint.Running? {
        StopStaysFit(pack, d, inputs[n]);
      }
    }
  }

  lemma StopStaysFit(pack: Pack, d: Drive, input: Input)
    requires Sane(pack) && d.joint.Running? && Termination.Next(pack, d, input).joint.Running?
    requires StopFits(d.joint.evcc)
    ensures StopFits(Termination.Next(pack, d, input).joint.evcc)
  {
    hide JointSessions.Next;
    hide Termination.Next;
    hide E.Step;
    hide S.Step;
    hide Answers;
    DriveReaction(pack, d, input);
    var e, res, env := d.joint.evcc, Response(d, input).res, Answers(pack, d, input);
    var found := if res.body.ServiceDiscoveryRes? then |E.Matching(res.body.energy, env.supported)| else 0;
    StepMoves(e, res, env, found);
  }

  lemma {:induction false} RunTells(pack: Pack, now: real, inputs: seq<Input>)
    requires Sane(pack)
    ensures var d := Termination.Run(pack, now, inputs);
      d.joint.Running? ==> Told(pack, d, BriefOf(pack, now, inputs))
  {
    hide Termination.Next;
    hide Told;
    hide Heard;
    DriveIsLinked(pack, now, inputs);
    if inputs == [] {
      StartIsTold(pack, now);
    } else {
      var n := |inputs| - 1;
      var d := Termination.Run(pack, now, inputs[..n]);
      DriveIsLinked(pack, now, inputs[..n]);
      RunTells(pack, now, inputs[..n]);
      if d.joint.Over? {
        OverStaysOver(pack, d, inputs[n]);
      } else if Termination.Run(pack, now, inputs).joint.Running? {
        StepTells(pack, d, inputs[n], BriefOf(pack, now, inputs[..n]));
      }
    }
  }

  lemma StartIsTold(pack: Pack, now: real)
    requires Sane(pack)
    ensures Told(pack, Termination.Start(now), Brief(None, Hints(None, None), false, 0, 0))
  {
  }

  /**
   With what a car enters the charge loop of any joint run: at 20 percent, with the limit that
   the station gave at the discovery of DC parameters, the target that the last schedule
   exchange hinted at in Dynamic mode and 90 percent otherwise, the power of its mode, and
   the test exactly when a service selection named the services of a configured one.
   */
  lemma {:induction false} EntersLoop(pack: Pack, now: real, inputs: seq<Input>)
    requires Sane(pack)
    ensures var d, b := Termination.Run(pack, now, inputs), BriefOf(pack, now, inputs);
      d.joint.Running? && d.joint.evcc.state.DcLoop? ==>
        Agreed(pack, d.begun, d.joint.evcc.mode, b) && Idle(pack, d.begun, b) && (d.bidirectional <==> DischargesOnRequest(d.joint.evcc))
  {
    RunTells(pack, now, inputs);
  }

  /**
   An ordinary loop is stopped by the battery with the first response at which the charge has
   reached the target of the last schedule exchange, and with no other.
   */
  lemma {:induction false} OrdinaryLoopEndsAtTarget(pack: Pack, now: real, inputs: seq<Input>, next: Input)
    requires Sane(pack)
    ensures var d, b := Termination.Run(pack, now, inputs), BriefOf(pack, now, inputs);
      d.joint.Running? && d.joint.evcc.state.DcLoop? && !b.tested ==>
        var path, target := Test(pack, d).path, TargetOf(d.joint.evcc.mode, b.hints);
        && path != []
        && (forall i :: 0 <= i < |path| - 1 ==> path[i].soc < target)
        && (Answers(pack, d, next).continueCharging <==> D.Last(path).soc < target)
  {
    hide Termination.Run;
    hide BriefOf;
    EntersLoop(pack, now, inputs);
    var d, b := Termination.Run(pack, now, inputs), BriefOf(pack, now, inputs);
    if d.joint.Running? && d.joint.evcc.state.DcLoop? && !b.tested {
      D.EndsExactlyAtTarget(pack, d.bidirectional, d.begun, d.begunAt, d.ticks, next.tick);
    }
  }

  /** The precharge test holds exactly for equal voltages or after five failures, counting one that has just been found. */
  lemma {:induction false} PrechargeTested(pack: Pack, now: real, inputs: seq<Input>, next: Input)
    requires Sane(pack)
    ensures var d, env, misses := Termination.Run(pack, now, inputs), Answers(pack, Termination.Run(pack, now, inputs), next),
                                  BriefOf(pack, now, inputs).misses;
      d.joint.Running? ==>
        && (env.precharged <==> next.secc.evseVoltage == next.evVoltage || misses >= 5)
        && (env.stillPrecharged <==> next.secc.evseVoltage == next.evVoltage || misses >= 4)
  {
    hide Termination.Run;
    hide BriefOf;
    RunTells(pack, now, inputs);
  }

  /** The welding detection has finished exactly from the fourth time on that the car is asked. */
  lemma {:induction false} WeldingFinishesFourth(pack: Pack, now: real, inputs: seq<Input>, next: Input)
    requires Sane(pack)
    ensures var d := Termination.Run(pack, now, inputs);
      d.joint.Running? ==> (Answers(pack, d, next).weldingFinished <==> BriefOf(pack, now, inputs).weldings >= 3)
  {
    hide Termination.Run;
    hide BriefOf;
    RunTells(pack, now, inputs);
  }
}
