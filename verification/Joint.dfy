/**
 The two ISO 15118-20 machines running against each other over a reliable connection: the
 EVCC's pending request, the SECC's answer, the EVCC's next request.
 */
module JointSessions {
  import opened Options
  import opened Messages
  import E = EvccProtocol
  import S = SeccProtocol

  /** What the car's and the station's surroundings answer during one exchange. */
  datatype Turn = Turn(secc: S.Env, evcc: E.Env)

  datatype Ending = Completed | EvccStopped | EvccRaised | SeccRaised

  /** `held` is the message a stopping EVCC repeats on its way out. */
  datatype Joint =
    | Running(evcc: E.Session, pending: Request, secc: S.Session)
    | Over(evcc: E.Session, secc: S.Session, held: Option<Request>, ending: Ending)

  const Opening := Running(E.Initial, SessionSetupReq, S.Initial)

  function After(evcc: E.Session, secc: S.Session, reaction: E.Outcome): Joint {
    match reaction
    case Sent(req) => Running(evcc, req, secc)
    case Quit(held, successful) => Over(evcc, secc, held, if successful then Completed else EvccStopped)
    case Raised => Over(evcc, secc, None, EvccRaised)
  }

  function Next(j: Joint, turn: Turn): Joint {
    if j.Over? then j
    else
      var (secc, answer) := S.Step(j.secc, j.evcc.sid, j.pending, turn.secc);
      if answer.Raised? then Over(j.evcc, secc, None, SeccRaised)
      else
        var (evcc, reaction) := E.Step(j.evcc, answer.res, turn.evcc);
        After(evcc, secc, reaction)
  }

  /** An exchange from its two halves. */
  lemma Exchange(j: Joint, turn: Turn, secc: S.Session, res: Response, evcc: E.Session, reaction: E.Outcome)
    requires j.Running?
    requires S.Step(j.secc, j.evcc.sid, j.pending, turn.secc) == (secc, S.Replied(res))
    requires E.Step(j.evcc, res, turn.evcc) == (evcc, reaction)
    ensures Next(j, turn) == After(evcc, secc, reaction)
  {
  }

  function Run(turns: seq<Turn>): Joint {
    if turns == [] then Opening else Next(Run(turns[..|turns| - 1]), turns[|turns| - 1])
  }

  /**
   The one thing the car must not do: find itself no longer precharged right after it has
   announced the end of the precharge, when the station has already moved on.
   */
  predicate Steady(j: Joint, turn: Turn) {
    j.Running? && j.pending == PreChargeReq(Finished) ==> turn.evcc.precharged
  }

  predicate SteadyRun(turns: seq<Turn>) {
    turns == [] ||
    (var last := |turns| - 1;
     SteadyRun(turns[..last]) && Steady(Run(turns[..last]), turns[last]))
  }

  predicate SameService(e: E.Session, s: S.Session) {
    && e.selected.Some? && s.selected.Some? && e.selected.value.service == s.selected.value.service
    && (if e.isAc then IsAc(e.selected.value.service) else IsDc(e.selected.value.service))
  }

  /** Neither stopping nor waiting for itself. */
  predicate Steadfast(e: E.Session) { e.stop.None? && !e.evProcessing.Ongoing? }

  /** A state that stayed put holds a message of the kind it sends. */
  predicate HoldsOwn(held: Option<Request>, kind: Kind) { held.Some? ==> KindOf(held.value) == kind }

  /** Where the station stands while the car awaits an answer, and what both have settled by then. */
  predicate Stage(e: E.Session, req: Request, s: S.Session) {
    match e.state
    case SessionSetup => s.state.SessionSetup? && Steadfast(e)
    case AuthorizationSetup => s.state.AuthorizationSetup? && Steadfast(e)
    case CertificateInstallation => s.state == S.State.AuthorizationSetup(false)
    case Authorization =>
      (s.state == S.State.AuthorizationSetup(false) || s.state == S.State.Authorization(true)) && Steadfast(e)
    case ServiceDiscovery => s.state == S.State.Authorization(false) && Steadfast(e)
    case ServiceDetail =>
      (s.state == S.State.ServiceDiscovery(false) || s.state == S.State.ServiceDetail(false)) && Steadfast(e)
    case ServiceSelection =>
      && s.state == S.State.ServiceDetail(false) && Steadfast(e)
      && req.ServiceSelectionReq? && e.selected.Some? && req.energy.service == e.selected.value.service
    case AcParameters => s.state.AcParameters? && Steadfast(e) && SameService(e, s) && e.isAc
    case DcParameters => s.state.DcParameters? && Steadfast(e) && SameService(e, s) && !e.isAc
    case ScheduleExchange => s.state.ScheduleExchange? && Steadfast(e) && SameService(e, s)
    case CableCheck(held) =>
      && (s.state.ScheduleExchange? || s.state.CableCheck?) && e.stop.None? && SameService(e, s) && !e.isAc
      && HoldsOwn(held, KCableCheck)
    case PreCharge(builtOnce, held) =>
      && s.state.PreCharge? && e.stop.None? && SameService(e, s) && !e.isAc
      && HoldsOwn(held, KPreCharge) && (!builtOnce ==> req == PreChargeReq(Ongoing))
    case PowerDelivery =>
      && (s.state.PowerDelivery? || s.state == S.State.PreCharge(false) || s.state.AcLoop? || s.state == S.State.DcLoop(false))
      && SameService(e, s) && req.PowerDeliveryReq?
      && (req.evProcessing.Ongoing? <==> e.evProcessing.Ongoing?)
      && (if e.stop.Some? then req.progress.Stop? else req.progress.Start?)
      && (e.stop.Some? ==> !e.stop.value.Pause? && !e.evProcessing.Ongoing?)
    case AcLoop => s.state.AcLoop? && Steadfast(e) && SameService(e, s) && e.isAc
    case DcLoop(held) => s.state.DcLoop? && Steadfast(e) && SameService(e, s) && !e.isAc && HoldsOwn(held, KDcLoop)
    case Welding(_, held) => (s.state.PowerDelivery? || s.state == S.State.Welding(false)) && HoldsOwn(held, KWelding)
    case SessionStop =>
      s.state == S.State.ServiceDiscovery(false) || s.state == S.State.ServiceDetail(false) || s.state.PowerDelivery?
      || s.state == S.State.Welding(false)
    case Terminated => false
  }

  predicate Linked(e: E.Session, req: Request, s: S.Session) {
    && Stage(e, req, s)
    && KindOf(req) == E.Awaited(e.state)
    && (e.state.SessionSetup? || e.sid == s.sid)
    && !e.offer.goToPause
  }

  predicate LinkedJoint(j: Joint) { j.Running? ==> Linked(j.evcc, j.pending, j.secc) }

  /** The car asks for another precharge after the station has moved on to the power delivery. */
  predicate Lost(j: Joint) {
    && j.Running? && j.evcc.state.PreCharge? && j.secc.state.PowerDelivery? && j.pending.PreChargeReq?
    && j.evcc.sid == j.secc.sid && HoldsOwn(j.evcc.state.held, KPreCharge)
  }

  /** What every turn keeps, with any services and any answers of the surroundings. */
  predicate LinkedOrLost(j: Joint) { LinkedJoint(j) || Lost(j) }

  lemma LostEnds(j: Joint, turn: Turn)
    requires Lost(j)
    ensures var over := Next(j, turn);
      && over.Over? && over.ending.EvccStopped? && over.evcc.state.Terminated? && over.secc.state.Terminated?
      && over.held == E.Held(j.evcc.state)
  {
  }

  lemma LinkedPasses(e: E.Session, req: Request, s: S.Session)
    requires Linked(e, req, s)
    ensures S.Passes(s, e.sid, req)
  {
  }

  lemma SetupKeepsLink(j: Joint, turn: Turn)
    requires j.Running? && LinkedJoint(j)
    requires j.evcc.state.SessionSetup?
    ensures LinkedJoint(Next(j, turn))
  {
    hide S.Step;
    hide E.Step;
    LinkedPasses(j.evcc, j.pending, j.secc);
    S.SessionSetupStep(j.secc, j.evcc.sid, j.pending, turn.secc);
    var answer := S.Step(j.secc, j.evcc.sid, j.pending, turn.secc).1;
    if answer.Replied? {
      E.SessionSetupStep(j.evcc, answer.res, turn.evcc);
    }
  }

  lemma AuthorizationSetupKeepsLink(j: Joint, turn: Turn)
    requires j.Running? && LinkedJoint(j)
    requires j.evcc.state.AuthorizationSetup?
    ensures LinkedJoint(Next(j, turn))
  {
    hide S.Step;
    hide E.Step;
    LinkedPasses(j.evcc, j.pending, j.secc);
    S.AuthorizationSetupStep(j.secc, j.evcc.sid, j.pending, turn.secc);
    var answer := S.Step(j.secc, j.evcc.sid, j.pending, turn.secc).1;
    if answer.Replied? {
      E.AuthorizationSetupStep(j.evcc, answer.res, turn.evcc);
    }
  }

  lemma InstallationKeepsLink(j: Joint, turn: Turn)
    requires j.Running? && LinkedJoint(j)
    requires j.evcc.state.CertificateInstallation?
    ensures Next(j, turn).Over?
  {
    LinkedPasses(j.evcc, j.pending, j.secc);
    S.InstallationStep(j.secc, j.evcc.sid, j.pending, turn.secc);
  }

  lemma AuthorizationKeepsLink(j: Joint, turn: Turn)
    requires j.Running? && LinkedJoint(j)
    requires j.evcc.state.Authorization?
    ensures LinkedJoint(Next(j, turn))
  {
    hide S.Step;
    hide E.Step;
    LinkedPasses(j.evcc, j.pending, j.secc);
    S.AuthorizationStep(j.secc, j.evcc.sid, j.pending, turn.secc);
    var answer := S.Step(j.secc, j.evcc.sid, j.pending, turn.secc).1;
    if answer.Replied? {
      E.AuthorizationStep(j.evcc, answer.res, turn.evcc);
    }
  }

  /** After a discovery or detail answer: the car asks for more details, selects, or stops. */
  lemma ServicesLinked(e: E.Session, r: (E.Session, E.Outcome), s: S.Session)
    requires E.Agrees(r) && E.AmongServices(e, r)
    requires e.sid == s.sid && !e.offer.goToPause && e.stop.None? && !e.evProcessing.Ongoing?
    requires s.state == S.State.ServiceDetail(false) || (s.state == S.State.ServiceDiscovery(false) && !r.0.state.ServiceSelection?)
    ensures LinkedJoint(After(r.0, s, r.1))
  {
  }

  lemma StationAtServices(s: S.Session, sid: string, req: Request, env: S.Env)
    requires S.Passes(s, sid, req) && (req.ServiceDiscoveryReq? || req.ServiceDetailReq?)
    ensures var (s', answer) := S.Step(s, sid, req, env);
      && answer.Replied? && s'.sid == s.sid
      && s'.state == if req.ServiceDiscoveryReq? then S.State.ServiceDiscovery(false) else S.State.ServiceDetail(false)
  {
  }

  lemma NoSelectionYet(e: E.Session, res: Response, env: E.Env)
    requires e.state.ServiceDiscovery?
    ensures !E.Step(e, res, env).0.state.ServiceSelection?
  {
  }

  lemma ServicesKeepLink(j: Joint, turn: Turn)
    requires j.Running? && LinkedJoint(j)
    requires j.evcc.state.ServiceDiscovery? || j.evcc.state.ServiceDetail?
    ensures LinkedJoint(Next(j, turn))
  {
    LinkedPasses(j.evcc, j.pending, j.secc);
    StationAtServices(j.secc, j.evcc.sid, j.pending, turn.secc);
    var (secc, answer) := S.Step(j.secc, j.evcc.sid, j.pending, turn.secc);
    if j.evcc.state.ServiceDiscovery? {
      NoSelectionYet(j.evcc, answer.res, turn.evcc);
    }
    var reaction := E.Step(j.evcc, answer.res, turn.evcc);
    ServicesLinked(j.evcc, reaction, secc);
    Exchange(j, turn, secc, answer.res, reaction.0, reaction.1);
  }

  lemma SelectionKeepsLink(j: Joint, turn: Turn)
    requires j.Running? && LinkedJoint(j)
    requires j.evcc.state.ServiceSelection?
    ensures LinkedJoint(Next(j, turn))
  {
    hide S.Step;
    hide E.Step;
    hide S.Chosen;
    hide S.ChosenMode;
    hide S.PairOffered;
    hide S.AllOffered;
    LinkedPasses(j.evcc, j.pending, j.secc);
    S.ServiceSelectionStep(j.secc, j.evcc.sid, j.pending, turn.secc);
    var answer := S.Step(j.secc, j.evcc.sid, j.pending, turn.secc).1;
    if answer.Replied? {
      E.ServiceSelectionStep(j.evcc, answer.res, turn.evcc);
    }
  }

  lemma AcParametersKeepLink(j: Joint, turn: Turn)
    requires j.Running? && LinkedJoint(j)
    requires j.evcc.state.AcParameters?
    ensures LinkedJoint(Next(j, turn))
  {
    hide S.Step;
    hide E.Step;
    LinkedPasses(j.evcc, j.pending, j.secc);
    S.AcParametersStep(j.secc, j.evcc.sid, j.pending, turn.secc);
    var answer := S.Step(j.secc, j.evcc.sid, j.pending, turn.secc).1;
    if answer.Replied? {
      E.ChargeParametersStep(j.evcc, answer.res, turn.evcc);
    }
  }

  lemma DcParametersKeepLink(j: Joint, turn: Turn)
    requires j.Running? && LinkedJoint(j)
    requires j.evcc.state.DcParameters?
    ensures LinkedJoint(Next(j, turn))
  {
    hide S.Step;
    hide E.Step;
    LinkedPasses(j.evcc, j.pending, j.secc);
    S.DcParametersStep(j.secc, j.evcc.sid, j.pending, turn.secc);
    var answer := S.Step(j.secc, j.evcc.sid, j.pending, turn.secc).1;
    if answer.Replied? {
      E.ChargeParametersStep(j.evcc, answer.res, turn.evcc);
    }
  }

  /** The car's half of a schedule exchange turn. */
  lemma ScheduleLinks(e: E.Session, processing: Processing, offer: E.Offer, env: E.Env, s: S.Session)
    requires e.state.ScheduleExchange? && e.sid == s.sid && Steadfast(e) && SameService(e, s)
    requires !e.offer.goToPause && !offer.goToPause
    requires if processing.Ongoing? || !e.isAc then s.state.ScheduleExchange? else s.state.PowerDelivery?
    ensures var r := E.OnScheduleExchange(e, processing, offer, env); LinkedJoint(After(r.0, s, r.1))
  {
  }

  /** The station's half. */
  lemma StationSchedules(s: S.Session, sid: string, env: S.Env)
    requires S.Passes(s, sid, ScheduleExchangeReq) && s.selected.Some? && s.state.ScheduleExchange?
    ensures var (s', answer) := S.Step(s, sid, ScheduleExchangeReq, env);
      && s'.sid == s.sid && s'.selected == s.selected && s'.mode == s.mode && answer.Replied?
      && (!answer.res.failed ==>
           && !answer.res.body.goToPause
           && (if answer.res.body.processing.Ongoing? || !IsAc(s.selected.value.service) then s'.state.ScheduleExchange?
               else s'.state.PowerDelivery?))
  {
    hide S.Step;
    S.ScheduleExchangeStep(s, sid, ScheduleExchangeReq, env);
  }

  lemma ScheduleKeepsLink(j: Joint, turn: Turn)
    requires j.Running? && LinkedJoint(j)
    requires j.evcc.state.ScheduleExchange?
    ensures LinkedJoint(Next(j, turn))
  {
    hide S.Step;
    hide E.Step;
    hide E.OnScheduleExchange;
    LinkedPasses(j.evcc, j.pending, j.secc);
    StationSchedules(j.secc, j.evcc.sid, turn.secc);
    var (secc, answer) := S.Step(j.secc, j.evcc.sid, j.pending, turn.secc);
    E.ScheduleExchangeStep(j.evcc, answer.res, turn.evcc);
    if E.Passes(j.evcc, answer.res) {
      var body := answer.res.body;
      ScheduleLinks(j.evcc, body.processing, E.Offer(body.tuples, body.goToPause), turn.evcc, secc);
    }
  }

  /** The car's half of a cable check turn. */
  lemma CableCheckLinks(e: E.Session, processing: Processing, env: E.Env, s: S.Session)
    requires e.state.CableCheck? && e.sid == s.sid && !e.offer.goToPause && e.stop.None? && SameService(e, s) && !e.isAc
    requires if processing.Finished? then s.state.PreCharge? else s.state.CableCheck?
    ensures LinkedJoint(After(E.OnCableCheck(e, processing, env).0, s, E.OnCableCheck(e, processing, env).1))
  {
  }

  /** The station's half. */
  lemma StationChecksCable(s: S.Session, sid: string, env: S.Env)
    requires S.Passes(s, sid, CableCheckReq)
    ensures var (s', answer) := S.Step(s, sid, CableCheckReq, env);
      && s'.sid == s.sid && s'.selected == s.selected && s'.matched == s.matched && s'.mode == s.mode
      && s'.offeredTuples == s.offeredTuples && answer.Replied?
      && (!answer.res.failed ==> if answer.res.body.processing.Finished? then s'.state.PreCharge? else s'.state.CableCheck?)
  {
    hide S.Step;
    S.CableCheckStep(s, sid, CableCheckReq, env);
  }

  lemma CableCheckKeepsLink(j: Joint, turn: Turn)
    requires j.Running? && LinkedJoint(j)
    requires j.evcc.state.CableCheck?
    ensures LinkedJoint(Next(j, turn))
  {
    hide S.Step;
    hide E.Step;
    hide E.OnCableCheck;
    LinkedPasses(j.evcc, j.pending, j.secc);
    StationChecksCable(j.secc, j.evcc.sid, turn.secc);
    var (secc, answer) := S.Step(j.secc, j.evcc.sid, j.pending, turn.secc);
    E.CableCheckStep(j.evcc, answer.res, turn.evcc);
    if E.Passes(j.evcc, answer.res) {
      CableCheckLinks(j.evcc, answer.res.body.processing, turn.evcc, secc);
    }
  }

  /** A car that loses its precharge after announcing its end asks again although the station has moved on. */
  lemma PreChargeKeepsLink(j: Joint, turn: Turn)
    requires j.Running? && LinkedJoint(j)
    requires j.evcc.state.PreCharge?
    ensures if Steady(j, turn) then LinkedJoint(Next(j, turn)) else Lost(Next(j, turn))
  {
    hide S.Step;
    hide E.Step;
    LinkedPasses(j.evcc, j.pending, j.secc);
    S.PreChargeStep(j.secc, j.evcc.sid, j.pending, turn.secc);
    var answer := S.Step(j.secc, j.evcc.sid, j.pending, turn.secc).1;
    if answer.Replied? {
      E.PreChargeStep(j.evcc, answer.res, turn.evcc);
    }
  }

  /** The car's half of a power delivery turn. */
  lemma DeliveryLinks(e: E.Session, env: E.Env, s: S.Session)
    requires e.state.PowerDelivery? && e.sid == s.sid && !e.offer.goToPause && SameService(e, s)
    requires e.stop.Some? ==> !e.stop.value.Pause? && !e.evProcessing.Ongoing?
    requires if e.evProcessing.Ongoing? || e.stop.Some? then s.state.PowerDelivery? else s.state == S.LoopFor(s.selected.value.service)
    ensures var r := E.OnPowerDelivery(e, env); LinkedJoint(After(r.0, s, r.1))
  {
    if e.evProcessing.Ongoing? {
      RepeatLinks(e, env, s);
    } else {
      E.DeliveryOutcome(e, env);
    }
  }

  lemma RepeatLinks(e: E.Session, env: E.Env, s: S.Session)
    requires e.state.PowerDelivery? && e.sid == s.sid && !e.offer.goToPause && SameService(e, s)
    requires e.stop.None? && s.state.PowerDelivery?
    ensures var r := E.DeliverPower(e, env); LinkedJoint(After(r.0, s, r.1))
  {
  }

  /** The station's half. */
  lemma StationDelivers(s: S.Session, sid: string, req: Request, env: S.Env)
    requires S.Passes(s, sid, req) && req.PowerDeliveryReq? && (req.progress.Start? || req.progress.Stop?)
    ensures var (s', answer) := S.Step(s, sid, req, env);
      && s'.sid == s.sid && s'.selected == s.selected && s'.mode == s.mode && s'.offeredTuples == s.offeredTuples
      && (answer.Replied? && !answer.res.failed ==>
           if req.evProcessing.Ongoing? || req.progress.Stop? then s'.state.PowerDelivery?
           else s.selected.Some? && s'.state == S.LoopFor(s.selected.value.service))
  {
    hide S.Step;
    S.PowerDeliveryStep(s, sid, req, env);
  }

  lemma DeliveryKeepsLink(j: Joint, turn: Turn)
    requires j.Running? && LinkedJoint(j)
    requires j.evcc.state.PowerDelivery?
    ensures LinkedJoint(Next(j, turn))
  {
    hide S.Step;
    hide E.Step;
    hide E.OnPowerDelivery;
    LinkedPasses(j.evcc, j.pending, j.secc);
    StationDelivers(j.secc, j.evcc.sid, j.pending, turn.secc);
    var (secc, answer) := S.Step(j.secc, j.evcc.sid, j.pending, turn.secc);
    if answer.Replied? {
      E.PowerDeliveryStep(j.evcc, answer.res, turn.evcc);
      if E.Passes(j.evcc, answer.res) {
        DeliveryLinks(j.evcc, turn.evcc, secc);
      }
    }
  }

  lemma AcLoopKeepsLink(j: Joint, turn: Turn)
    requires j.Running? && LinkedJoint(j)
    requires j.evcc.state.AcLoop?
    ensures LinkedJoint(Next(j, turn))
  {
    hide S.Step;
    hide E.Step;
    hide E.OnLoop;
    LinkedPasses(j.evcc, j.pending, j.secc);
    S.AcLoopStep(j.secc, j.evcc.sid, j.pending, turn.secc);
    var answer := S.Step(j.secc, j.evcc.sid, j.pending, turn.secc).1;
    if answer.Replied? {
      E.LoopStep(j.evcc, answer.res, turn.evcc);
      if E.Passes(j.evcc, answer.res) {
        E.LoopOutcome(j.evcc, answer.res.body.status, turn.evcc);
      }
    }
  }

  lemma DcLoopKeepsLink(j: Joint, turn: Turn)
    requires j.Running? && LinkedJoint(j)
    requires j.evcc.state.DcLoop?
    ensures LinkedJoint(Next(j, turn))
  {
    hide S.Step;
    hide E.Step;
    hide E.OnLoop;
    LinkedPasses(j.evcc, j.pending, j.secc);
    S.DcLoopStep(j.secc, j.evcc.sid, j.pending, turn.secc);
    var answer := S.Step(j.secc, j.evcc.sid, j.pending, turn.secc).1;
    if answer.Replied? {
      E.LoopStep(j.evcc, answer.res, turn.evcc);
      if E.Passes(j.evcc, answer.res) {
        E.LoopOutcome(j.evcc, answer.res.body.status, turn.evcc);
      }
    }
  }

  lemma WeldingKeepsLink(j: Joint, turn: Turn)
    requires j.Running? && LinkedJoint(j)
    requires j.evcc.state.Welding?
    ensures LinkedJoint(Next(j, turn))
  {
    hide S.Step;
    hide E.Step;
    LinkedPasses(j.evcc, j.pending, j.secc);
    S.WeldingStep(j.secc, j.evcc.sid, j.pending, turn.secc);
    var answer := S.Step(j.secc, j.evcc.sid, j.pending, turn.secc).1;
    if answer.Replied? {
      E.UncheckedStep(j.evcc, answer.res, turn.evcc);
    }
  }

  lemma SessionStopKeepsLink(j: Joint, turn: Turn)
    requires j.Running? && LinkedJoint(j)
    requires j.evcc.state.SessionStop?
    ensures LinkedJoint(Next(j, turn))
  {
    hide S.Step;
    hide E.Step;
    LinkedPasses(j.evcc, j.pending, j.secc);
    S.SessionStopStep(j.secc, j.evcc.sid, j.pending, turn.secc);
    var answer := S.Step(j.secc, j.evcc.sid, j.pending, turn.secc).1;
    if answer.Replied? {
      E.SessionStopStep(j.evcc, answer.res, turn.evcc);
    }
  }

  lemma StepKeepsLink(j: Joint, turn: Turn)
    requires LinkedOrLost(j)
    ensures LinkedOrLost(Next(j, turn))
    ensures LinkedJoint(j) ==> (LinkedJoint(Next(j, turn)) <==> Steady(j, turn))
  {
    hide Next;
    hide Linked;
    if j.Over? {
      OverStays(j, turn);
    } else if Lost(j) {
      LostIsNotLinked(j);
      LostEnds(j, turn);
    } else {
      LinkedKinds(j);
      match j.evcc.state {
        case SessionSetup => SetupKeepsLink(j, turn);
        case AuthorizationSetup => AuthorizationSetupKeepsLink(j, turn);
        case CertificateInstallation => InstallationKeepsLink(j, turn);
        case Authorization => AuthorizationKeepsLink(j, turn);
        case ServiceDiscovery => ServicesKeepLink(j, turn);
        case ServiceDetail => ServicesKeepLink(j, turn);
        case ServiceSelection => SelectionKeepsLink(j, turn);
        case AcParameters => AcParametersKeepLink(j, turn);
        case DcParameters => DcParametersKeepLink(j, turn);
        case ScheduleExchange => ScheduleKeepsLink(j, turn);
        case CableCheck(_) => CableCheckKeepsLink(j, turn);
        case PreCharge(_, _) =>
          PreChargeKeepsLink(j, turn);
          if !Steady(j, turn) {
            LostIsNotLinked(Next(j, turn));
          }
        case PowerDelivery => DeliveryKeepsLink(j, turn);
        case AcLoop => AcLoopKeepsLink(j, turn);
        case DcLoop(_) => DcLoopKeepsLink(j, turn);
        case Welding(_, _) => WeldingKeepsLink(j, turn);
        case SessionStop => SessionStopKeepsLink(j, turn);
        case Terminated => assert false;
      }
    }
  }

  /** A linked session is not lost, and awaits the answer to the request of its own state. */
  lemma LinkedKinds(j: Joint)
    requires j.Running? && LinkedJoint(j)
    ensures !j.evcc.state.Terminated? && !Lost(j) && KindOf(j.pending) == E.Awaited(j.evcc.state)
  {
  }

  lemma LostIsNotLinked(j: Joint)
    requires Lost(j)
    ensures !LinkedJoint(j)
  {
  }

  lemma OverStays(j: Joint, turn: Turn)
    requires j.Over?
    ensures Next(j, turn) == j
  {
  }

  lemma {:induction false} RunKeepsLink(turns: seq<Turn>)
    ensures LinkedOrLost(Run(turns))
    ensures SteadyRun(turns) ==> LinkedJoint(Run(turns))
  {
    if turns != [] {
      var last := |turns| - 1;
      RunKeepsLink(turns[..last]);
      StepKeepsLink(Run(turns[..last]), turns[last]);
    }
  }

  predicate Accepted(j: Joint) { j.Running? ==> S.Passes(j.secc, j.evcc.sid, j.pending) }

  /** Every request of the run is accepted, from the first to the one now pending. */
  predicate AlwaysAccepted(turns: seq<Turn>) {
    Accepted(Run(turns)) && (turns == [] || AlwaysAccepted(turns[..|turns| - 1]))
  }

  /** Losing the precharge after announcing its end always leads to a refused request. */
  lemma UnsteadyIsRefused(j: Joint, turn: Turn)
    requires LinkedJoint(j) && !Steady(j, turn)
    ensures !Accepted(Next(j, turn))
  {
    LinkedKinds(j);
    PreChargeKeepsLink(j, turn);
    LostIsRefused(Next(j, turn));
  }

  lemma LostIsRefused(j: Joint)
    requires Lost(j)
    ensures !Accepted(j)
  {
  }

  /**
   In every joint run, with any services, any modes, any number of Ongoing answers and loop
   cycles, the station accepts every request of the car, session id included - exactly when
   the car never loses its precharge right after announcing its end.
   */
  lemma {:induction false} AcceptedExactlyWhenSteady(turns: seq<Turn>)
    ensures AlwaysAccepted(turns) <==> SteadyRun(turns)
  {
    if turns != [] {
      var last := |turns| - 1;
      AcceptedExactlyWhenSteady(turns[..last]);
      if SteadyRun(turns[..last]) {
        RunKeepsLink(turns[..last]);
        LastTurn(Run(turns[..last]), turns[last]);
      }
    }
  }

  lemma LastTurn(j: Joint, turn: Turn)
    requires LinkedJoint(j)
    ensures Accepted(Next(j, turn)) <==> Steady(j, turn)
  {
    if Steady(j, turn) {
      StepKeepsLink(j, turn);
      var next := Next(j, turn);
      if next.Running? {
        LinkedPasses(next.evcc, next.pending, next.secc);
      }
    } else {
      UnsteadyIsRefused(j, turn);
    }
  }

  /** In every run each answer is of the kind the car's state awaits and passes its checks unless it reports a failure. */
  lemma AnswersAreAwaited(turns: seq<Turn>, env: S.Env)
    ensures Run(turns).Running? ==> AnswerAwaited(Run(turns), env)
  {
    if Run(turns).Running? {
      RunKeepsLink(turns);
      if Lost(Run(turns)) {
        LostAnswer(Run(turns), env);
      } else {
        LinkedAnswers(Run(turns), env);
      }
    }
  }

  predicate AnswerAwaited(j: Joint, env: S.Env)
    requires j.Running?
  {
    var answer := S.Step(j.secc, j.evcc.sid, j.pending, env).1;
    answer.Replied? ==>
      && !j.evcc.state.Terminated?
      && ResponseKind(answer.res.body) == E.Awaited(j.evcc.state)
      && (E.Passes(j.evcc, answer.res) <==> !answer.res.failed)
  }

  lemma LostAnswer(j: Joint, env: S.Env)
    requires Lost(j)
    ensures AnswerAwaited(j, env)
  {
  }

  lemma LinkedAnswers(j: Joint, env: S.Env)
    requires j.Running? && LinkedJoint(j)
    ensures AnswerAwaited(j, env)
  {
    var (s', answer) := S.Step(j.secc, j.evcc.sid, j.pending, env);
    if !j.evcc.state.SessionSetup? {
      S.IdKept(j.secc, j.evcc.sid, j.pending, env);
    }
  }

  // How runs end.

  /** Where a stopping car can leave the station waiting. */
  predicate LeftWaiting(s: S.State) { s.Authorization? || s.ServiceDetail? || s.CableCheck? || s.Welding? }

  /**
   A message that a stopping car repeats is still acceptable unless the station has
   terminated; it repeats what its state holds. A completed session ends both machines, unless the last stop asked a
   renegotiating station for another round. A car that stops for another reason has met a
   station that ended, or leaves it waiting in one of four states. An exception ends its own side.
   */
  predicate EndsWell(j: Joint, turn: Turn, over: Joint)
    requires j.Running? && over.Over?
  {
    && (over.held.Some? ==> over.secc.state.Terminated? || S.Passes(over.secc, over.evcc.sid, over.held.value))
    && (over.evcc.state.Terminated? || over.ending.SeccRaised?)
    && match over.ending
       case Completed =>
         && j.pending.SessionStopReq?
         && over.secc.state == if j.pending.session.ServiceRenegotiation? && turn.secc.renegotiation
                               then S.State.ServiceDiscovery(true) else S.State.Terminated
       case EvccStopped =>
         (over.secc.state.Terminated? || LeftWaiting(over.secc.state)) && over.held == E.Held(j.evcc.state)
       case EvccRaised => true
       case SeccRaised => over.secc.state.Terminated?
  }

  lemma EndOfRun(turns: seq<Turn>, turn: Turn)
    ensures Run(turns).Running? && Run(turns + [turn]).Over? ==> EndsWell(Run(turns), turn, Run(turns + [turn]))
  {
    assert (turns + [turn])[..|turns|] == turns;
    if Run(turns).Running? && Run(turns + [turn]).Over? {
      RunKeepsLink(turns);
      EndOfStep(Run(turns), turn);
    }
  }

  /** A car whose answer passes quits only when its session is complete or it has waited too long. */
  lemma PassingQuits(e: E.Session, res: Response, env: E.Env)
    requires E.Passes(e, res) && E.Step(e, res, env).1.Quit?
    ensures e.state.Authorization? || e.state.CableCheck? || e.state.Welding? || e.state.SessionStop?
  {
  }

  lemma WaitingQuits(e: E.Session, res: Response, env: E.Env)
    requires e.state.Authorization? || e.state.CableCheck? || e.state.Welding? || e.state.SessionStop?
    requires E.Passes(e, res) || e.state.Welding?
    ensures var (e', out) := E.Step(e, res, env);
      out.Quit? ==>
        if e.state.SessionStop? then out.successful && out.held.None?
        else
          && !out.successful && out.held == E.Held(e.state) && e'.sid == e.sid
          && (e.state.CableCheck? ==> !res.body.processing.Finished?)
  {
    hide E.Step;
    if e.state.Authorization? {
      E.AuthorizationStep(e, res, env);
    } else if e.state.CableCheck? {
      E.CableCheckStep(e, res, env);
    } else if e.state.Welding? {
      E.UncheckedStep(e, res, env);
    } else {
      E.SessionStopStep(e, res, env);
    }
  }

  /** Why a car quits: its session is complete, the answer does not pass, or it has waited too long. */
  lemma CarQuits(e: E.Session, res: Response, env: E.Env)
    requires E.Step(e, res, env).1.Quit?
    ensures var out := E.Step(e, res, env).1;
      if out.successful then e.state.SessionStop? && out.held.None?
      else
        && out.held == E.Held(e.state) && E.Step(e, res, env).0.sid == e.sid
        && (e.state.Authorization? || e.state.CableCheck? || e.state.Welding? || !E.Passes(e, res))
        && (e.state.CableCheck? && E.Passes(e, res) ==> !res.body.processing.Finished?)
  {
    hide E.Step;
    hide E.Passes;
    if e.state.CertificateInstallation? || e.state.Terminated? {
      E.UncheckedStep(e, res, env);
    } else if E.Passes(e, res) || e.state.Welding? {
      if !e.state.Welding? {
        PassingQuits(e, res, env);
      }
      WaitingQuits(e, res, env);
    } else {
      E.StoppedStep(e, res, env);
    }
  }

  lemma RaisedEnds(s: S.Session, sid: string, req: Request, env: S.Env)
    ensures S.Step(s, sid, req, env).1.Raised? ==> S.Step(s, sid, req, env).0.state.Terminated?
  {
  }

  /** A failed answer ends the station, apart from an authorization code, an unlisted detail and a loop of the wrong kind. */
  lemma FailureEnds(s: S.Session, sid: string, req: Request, env: S.Env)
    requires S.Step(s, sid, req, env).1.Replied? && S.Step(s, sid, req, env).1.res.failed
    requires !req.AuthorizationReq? && !req.ServiceDetailReq?
    requires req.AcLoopReq? ==> s.selected.Some? && IsAc(s.selected.value.service)
    requires req.DcLoopReq? ==> s.selected.Some? && IsDc(s.selected.value.service)
    ensures S.Step(s, sid, req, env).0.state.Terminated?
  {
  }

  lemma LinkedLoop(j: Joint)
    requires j.Running? && LinkedJoint(j)
    ensures j.pending.AcLoopReq? ==> j.secc.selected.Some? && IsAc(j.secc.selected.value.service)
    ensures j.pending.DcLoopReq? ==> j.secc.selected.Some? && IsDc(j.secc.selected.value.service)
    ensures !j.evcc.state.SessionSetup? ==> j.evcc.sid == j.secc.sid
    ensures j.evcc.state.CableCheck? ==> HoldsOwn(j.evcc.state.held, KCableCheck)
    ensures j.evcc.state.Welding? ==> HoldsOwn(j.evcc.state.held, KWelding)
  {
  }

  /** The station after an answer that passes the car's check, in the states from which a car quits all the same. */
  lemma StationBeforeQuit(j: Joint, turn: Turn)
    requires j.Running? && LinkedJoint(j)
    requires j.evcc.state.CableCheck? || j.evcc.state.Welding? || j.evcc.state.SessionStop?
      || j.evcc.state.Authorization? || j.evcc.state.ServiceDetail?
    ensures var (s', answer) := S.Step(j.secc, j.evcc.sid, j.pending, turn.secc);
      && s'.sid == j.secc.sid
      && (j.evcc.state.Authorization? ==> s'.state.Authorization? || s'.state.Terminated?)
      && (j.evcc.state.ServiceDetail? ==> s'.state.ServiceDetail?)
      && (j.evcc.state.CableCheck? ==> answer.Replied?)
      && (j.evcc.state.CableCheck? && !answer.res.failed && !answer.res.body.processing.Finished? ==> s'.state.CableCheck?)
      && (j.evcc.state.Welding? ==> s'.state == S.State.Welding(false))
      && (j.evcc.state.SessionStop? ==>
           && j.pending.SessionStopReq?
           && s'.state == if j.pending.session.ServiceRenegotiation? && turn.secc.renegotiation
                          then S.State.ServiceDiscovery(true) else S.State.Terminated)
  {
    hide S.Step;
    LinkedPasses(j.evcc, j.pending, j.secc);
    if j.evcc.state.CableCheck? {
      StationChecksCable(j.secc, j.evcc.sid, turn.secc);
    } else if j.evcc.state.Welding? {
      S.WeldingStep(j.secc, j.evcc.sid, j.pending, turn.secc);
    } else if j.evcc.state.Authorization? {
      S.AuthorizationStep(j.secc, j.evcc.sid, j.pending, turn.secc);
    } else if j.evcc.state.ServiceDetail? {
      S.ServiceDetailStep(j.secc, j.evcc.sid, j.pending, turn.secc);
    } else {
      S.SessionStopStep(j.secc, j.evcc.sid, j.pending, turn.secc);
    }
  }

  lemma EndOfStep(j: Joint, turn: Turn)
    requires j.Running? && LinkedOrLost(j)
    requires Next(j, turn).Over?
    ensures EndsWell(j, turn, Next(j, turn))
  {
    hide S.Step;
    hide E.Step;
    hide Linked;
    if Lost(j) {
      LostEnds(j, turn);
    } else {
      var (s', answer) := S.Step(j.secc, j.evcc.sid, j.pending, turn.secc);
      RaisedEnds(j.secc, j.evcc.sid, j.pending, turn.secc);
      LinkedKinds(j);
      LinkedLoop(j);
      LinkedAnswers(j, turn.secc);
      if answer.Replied? && E.Step(j.evcc, answer.res, turn.evcc).1.Quit? {
        CarQuits(j.evcc, answer.res, turn.evcc);
        if answer.res.failed && !j.pending.AuthorizationReq? && !j.pending.ServiceDetailReq? {
          FailureEnds(j.secc, j.evcc.sid, j.pending, turn.secc);
        }
        if j.evcc.state.CableCheck? || j.evcc.state.Welding? || j.evcc.state.SessionStop?
          || j.evcc.state.Authorization? || j.evcc.state.ServiceDetail? {
          StationBeforeQuit(j, turn);
        }
      }
    }
  }
}
