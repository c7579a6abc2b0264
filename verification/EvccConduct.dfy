/**
 The car's conduct as an observer of the wire can predict it, whatever the station answers.

 `History` has no state objects in it: only what was sent last and what the responses said.
 `Proper` says, with the answers of the charge controller, what the car sends next or how
 it ends, and `Waits` how long it waits for the response.
 */
module EvccConduct {
  import opened Options
  import opened Messages
  import opened EvccProtocol
  import opened EvccSafety

  /**
   `repeats`: the last request was of the kind of the one before. `energy` and `mode` belong
   to the service selected, `offer` to the last finished schedule exchange.
   */
  datatype History =
    | Over
    | Open(sid: string, repeats: bool, renegotiation: bool, vas: seq<Service>, energy: Option<Service>,
           mode: Option<ControlMode>, offer: Offer)

  const Beginning := Open("0000000000000000", false, false, [], None, None, Offer(None, false))

  /** The first parameter set of the first match, as last published. */
  function FirstSetOf(log: Log): Option<ParameterSet> {
    if log.found != [] && log.found[0] in log.published && log.published[log.found[0]] != []
    then Some(log.published[log.found[0]][0]) else None
  }

  function Watch(h: History, log: Log, input: Input, out: Outcome): History {
    if h.Over? || !out.Sent? then Over
    else
      var body, chosen := input.res.body, FirstSetOf(Observe(log, input, out));
      Open(
        if log.lastSent.SessionSetupReq? then input.res.sid else h.sid,
        KindOf(out.req) == KindOf(log.lastSent),
        if log.lastSent.ServiceDiscoveryReq? && body.ServiceDiscoveryRes? then body.renegotiation else h.renegotiation,
        if log.lastSent.ServiceDiscoveryReq? && body.ServiceDiscoveryRes? then body.vas else h.vas,
        if out.req.ServiceSelectionReq? then Some(out.req.energy.service) else h.energy,
        if out.req.ServiceSelectionReq? && chosen.Some? then ModeOf(chosen.value) else h.mode,
        if log.lastSent.ScheduleExchangeReq? && body.ScheduleExchangeRes? && !body.processing.Ongoing?
        then Offer(body.tuples, body.goToPause) else h.offer)
  }

  function Watched(inputs: seq<Input>): History {
    if inputs == [] then Beginning
    else
      var n := |inputs| - 1;
      Watch(Watched(inputs[..n]), Run(inputs[..n]).log, inputs[n], Run(inputs).out)
  }

  /** A response to the last request, without a failure and with the id given out. */
  predicate Good(h: History, log: Log, res: Response)
    requires h.Open?
  {
    ResponseKind(res.body) == KindOf(log.lastSent) && !res.failed && (log.lastSent.SessionSetupReq? || res.sid == h.sid)
  }

  predicate InTime(log: Log, now: real, limit: real) { log.loopStart.Some? ==> now - log.loopStart.value <= limit }

  predicate Holds(req: Request) { req.CableCheckReq? || req.PreChargeReq? || req.DcLoopReq? || req.WeldingReq? }

  /** A car that gives up sends its last request again if it was in one of the DC loops. */
  function GivesUp(h: History, log: Log): Outcome
    requires h.Open?
  {
    Quit(if h.repeats && Holds(log.lastSent) then Some(log.lastSent) else None, false)
  }

  /** A loop that waits for the station: the request again while in time. */
  predicate Repeats(h: History, log: Log, input: Input, limit: real, out: Outcome)
    requires h.Open?
  {
    log.clocked ==> out == if InTime(log, input.env.now, limit) then Sent(log.lastSent) else GivesUp(h, log)
  }

  predicate ProperDelivery(offer: Offer, mode: Option<ControlMode>, env: Env, out: Outcome) {
    if !env.profileReady then out == Sent(PowerDeliveryReq(Ongoing, Start, None))
    else if mode != Some(Scheduled) then out == Sent(PowerDeliveryReq(Finished, if offer.goToPause then Stop else Start, None))
    else if offer.tuples.None? || offer.tuples.value == [] then out.Raised?
    else out == Sent(PowerDeliveryReq(Finished, if offer.goToPause then Stop else Start, Some(offer.tuples.value[0])))
  }

  /** A value-added service without published details is asked for with set 1. */
  function PickOf(service: Service, published: map<Service, seq<ParameterSet>>): Pick {
    Pick(service, if service in published && published[service] != [] then published[service][0].id else 1)
  }

  predicate ProperVas(vas: seq<Service>, published: map<Service, seq<ParameterSet>>, diagnostic: Option<Service>, picks: seq<Pick>) {
    match diagnostic
    case None => |picks| == |vas| && forall k :: 0 <= k < |vas| ==> picks[k] == PickOf(vas[k], published)
    case Some(service) => picks == if service in vas then [PickOf(service, published)] else []
  }

  /** The details of the matches from the last to the first; then the first match with the first set published for it. */
  predicate ProperDetail(h: History, log: Log, service: Service, sets: seq<ParameterSet>, env: Env, out: Outcome)
    requires h.Open?
  {
    var published, asked := log.published[service := sets], |log.requested|;
    if asked < |log.found| then out == Sent(ServiceDetailReq(log.found[|log.found| - 1 - asked]))
    else
      var chosen := FirstSetOf(log.(published := published));
      if chosen.None? then out.Raised?
      else if chosen.value.modes == [] then out == Sent(SessionStopReq(ChargingSession.Terminate))
      else
        && out.Sent? && out.req.ServiceSelectionReq? && log.found != []
        && out.req.energy == Pick(log.found[0], chosen.value.id) && ProperVas(h.vas, published, env.diagnostic, out.req.vas)
  }

  /** A loop response is answered by a stop exactly when it notifies one or the controller does not go on. */
  predicate ProperLoop(log: Log, env: Env, status: Option<EvseNotification>, out: Outcome) {
    && (out.Raised? <==> status == Some(NotifyOther))
    && (out == Sent(PowerDeliveryReq(Finished, Stop, None)) <==>
         status == Some(NotifyTerminate) || status == Some(NotifyServiceRenegotiation) || (status.None? && !env.continueCharging))
    && (out == Sent(log.lastSent) <==> status.None? && env.continueCharging)
  }

  predicate Renegotiates(log: Log) { log.stop == Some(Some(NotifyServiceRenegotiation)) }

  /**
   After a power delivery: again while the car is not ready; after a stop the welding
   detection of a DC session, or the end of an AC session, which is a renegotiation exactly
   when the loop response that was answered by the stop had notified one; else the loop.
   */
  predicate AfterDelivery(h: History, log: Log, env: Env, out: Outcome)
    requires h.Open? && log.lastSent.PowerDeliveryReq?
  {
    h.energy.Some? &&
    if log.lastSent.evProcessing.Ongoing? then ProperDelivery(h.offer, h.mode, env, out)
    else if log.stop.None? then out == Sent(if IsAc(h.energy.value) then AcLoopReq else DcLoopReq)
    else if IsDc(h.energy.value) then out == Sent(WeldingReq(Ongoing))
    else out == Sent(SessionStopReq(if Renegotiates(log) then ServiceRenegotiation else ChargingSession.Terminate))
  }

  /** The reaction to a good response; a welding response is not even looked at. */
  predicate Proper(h: History, log: Log, input: Input, out: Outcome)
    requires h.Open? && (Good(h, log, input.res) || log.lastSent.WeldingReq? || log.lastSent.CertificateInstallationReq?)
  {
    var body, env := input.res.body, input.env;
    match log.lastSent
    case SessionSetupReq => out == Sent(AuthorizationSetupReq)
    case AuthorizationSetupReq =>
      && (out == Sent(CertificateInstallationReq) <==> body.certInstallService && env.certInstallNeeded && env.oemKeyReadable)
      && (out == Sent(CertificateInstallationReq) ||
           var pnc := body.pncOffered && env.contractKeyReadable; out == Sent(AuthorizationReq(pnc, pnc)))
    case CertificateInstallationReq => out.Raised?
    case AuthorizationReq(_, _) =>
      if body.processing.Finished? then out == Sent(ServiceDiscoveryReq) else Repeats(h, log, input, 60.0, out)
    case ServiceDiscoveryReq =>
      var found := Matching(body.energy, env.supported);
      out == Sent(if found == [] then SessionStopReq(ChargingSession.Terminate) else ServiceDetailReq(found[|found| - 1]))
    case ServiceDetailReq(_) => ProperDetail(h, log, body.service, body.sets, env, out)
    case ServiceSelectionReq(energy, _) =>
      if energy.service in {Ac, AcBpt} then out == Sent(AcParametersReq)
      else if energy.service in {Dc, DcBpt} then out == Sent(DcParametersReq)
      else out.Raised?
    case AcParametersReq => out == Sent(ScheduleExchangeReq)
    case DcParametersReq => out == Sent(ScheduleExchangeReq)
    case ScheduleExchangeReq =>
      if body.processing.Ongoing? then out == Sent(ScheduleExchangeReq)
      else if h.energy.Some? && IsAc(h.energy.value) then ProperDelivery(Offer(body.tuples, body.goToPause), h.mode, env, out)
      else if env.profileReady && h.mode == Some(Scheduled) && (body.tuples.None? || body.tuples.value == []) then out.Raised?
      else out == Sent(CableCheckReq)
    case PowerDeliveryReq(_, _, _) => AfterDelivery(h, log, env, out)
    case AcLoopReq => ProperLoop(log, env, StatusOf(body), out)
    case DcLoopReq => ProperLoop(log, env, StatusOf(body), out)
    case CableCheckReq =>
      if body.processing.Finished? then out == Sent(PreChargeReq(Ongoing)) else Repeats(h, log, input, 40.0, out)
    case PreChargeReq(_) =>
      if h.repeats && env.precharged then ProperDelivery(h.offer, h.mode, env, out)
      else out == Sent(PreChargeReq(if env.stillPrecharged then Finished else Ongoing))
    case WeldingReq(evProcessing) =>
      log.clocked ==>
        out == if !InTime(log, env.now, 60.0) then GivesUp(h, log)
               else Sent(if evProcessing.Finished? then SessionStopReq(ChargingSession.Terminate)
                         else WeldingReq(if env.weldingFinished then Finished else Ongoing))
    case SessionStopReq(_) => EndsProperly(h, log, out)
  }

  /** The last response completes the session, unless a supported renegotiation was notified or the chosen set had no control mode. */
  predicate EndsProperly(h: History, log: Log, out: Outcome)
    requires h.Open?
  {
    out == if (h.renegotiation && Renegotiates(log)) || (log.stop.None? && log.found != []) then Raised else Quit(None, true)
  }

  predicate Conduct(h: History, log: Log, input: Input, out: Outcome) {
    if h.Over? then out.Raised?
    else if Good(h, log, input.res) || log.lastSent.WeldingReq? || log.lastSent.CertificateInstallationReq? then
      Proper(h, log, input, out)
    else out == GivesUp(h, log)
  }

  /** The wait for the response to a request; a repeated authorization waits no longer than the time left. */
  predicate Waits(log: Log, input: Input, req: Request, wait: real) {
    match req
    case CertificateInstallationReq => wait == 5.0
    case ServiceDetailReq(_) => wait == 5.0
    case AcLoopReq => wait == 0.5
    case DcLoopReq => wait == 0.5
    case AuthorizationReq(_, _) =>
      var left := if log.loopStart.Some? then 60.0 - (input.env.now - log.loopStart.value) else 60.0;
      log.clocked ==> wait == if log.lastSent.AuthorizationReq? && left < 2.0 then left else 2.0
    case _ => wait == 2.0
  }

  /** The state object that the history amounts to. */
  function StateOf(h: History, log: Log): State
    requires h.Open?
  {
    var held := if h.repeats then Some(log.lastSent) else None;
    match log.lastSent
    case SessionSetupReq => State.SessionSetup
    case AuthorizationSetupReq => State.AuthorizationSetup
    case CertificateInstallationReq => State.CertificateInstallation
    case AuthorizationReq(_, _) => State.Authorization
    case ServiceDiscoveryReq => State.ServiceDiscovery
    case ServiceDetailReq(_) => State.ServiceDetail
    case ServiceSelectionReq(_, _) => State.ServiceSelection
    case AcParametersReq => State.AcParameters
    case DcParametersReq => State.DcParameters
    case ScheduleExchangeReq => State.ScheduleExchange
    case PowerDeliveryReq(_, _, _) => State.PowerDelivery
    case AcLoopReq => State.AcLoop
    case DcLoopReq => State.DcLoop(held)
    case CableCheckReq => State.CableCheck(held)
    case PreChargeReq(_) => State.PreCharge(h.repeats, held)
    case WeldingReq(evProcessing) => State.Welding(evProcessing.Finished?, held)
    case SessionStopReq(_) => State.SessionStop
  }

  predicate BeforeDelivery(state: State) {
    Early(state) || state.ServiceDetail? || state.ServiceSelection? || state.AcParameters? || state.DcParameters? || state.ScheduleExchange?
  }

  /** What the session remembers of the services and of its progress is what the history shows. */
  predicate Remembers(h: History, log: Log, s: Session)
    requires h.Open?
  {
    && s.sid == h.sid && s.renegotiationSupported == h.renegotiation && s.offer == h.offer
    && (BeforeDelivery(s.state) ==> !s.evProcessing.Ongoing?)
    && (s.state.PowerDelivery? ==> log.lastSent.PowerDeliveryReq? && (s.evProcessing.Ongoing? <==> log.lastSent.evProcessing.Ongoing?))
    && (s.state.Authorization? ==> log.lastSent == AuthorizationReq(s.pnc, s.pnc))
    && (s.state.ServiceSelection? || ServiceKept(s.state) ==>
         && s.selected.Some? && h.energy == Some(s.selected.value.service) && s.mode == h.mode)
    && (s.state.ServiceSelection? ==> log.lastSent.ServiceSelectionReq? && h.energy == Some(log.lastSent.energy.service))
  }

  predicate RemembersStop(log: Log, s: Session) {
    && (log.stop.Some? ==> s.stop == Some(if Renegotiates(log) then ServiceRenegotiation else ChargingSession.Terminate))
    && (log.stop.None? ==> s.stop == if s.state.SessionStop? && log.found == [] then Some(ChargingSession.Terminate) else None)
    && (s.renegotiationRequested <==> Renegotiates(log))
    && (s.state.Welding? ==> log.stop.Some?)
    && (BeforeDelivery(s.state) ==> log.stop.None?)
  }

  /** The energy matches come first, the value-added services behind them. */
  predicate Arranged(matched: seq<MatchedService>, found: seq<Service>, vas: seq<Service>) {
    && |matched| == |found| + |vas|
    && (forall i :: 0 <= i < |found| ==> matched[i].isEnergy)
    && (forall i :: |found| <= i < |matched| ==> !matched[i].isEnergy && matched[i].service == vas[i - |found|])
  }

  predicate Follows(h: History, trace: Trace) {
    && (h.Over? <==> trace.session.state.Terminated?)
    && (h.Open? ==>
         && trace.out.Sent? && trace.session.state == StateOf(h, trace.log)
         && Remembers(h, trace.log, trace.session) && RemembersStop(trace.log, trace.session)
         && (trace.session.state.ServiceDetail? ==> Arranged(trace.session.matched, trace.log.found, h.vas)))
  }

  /** The reaction to a response, the wait for the next one, and where this leaves the session. */
  predicate Conducted(h: History, trace: Trace, input: Input) {
    var next := Next(trace, input);
    && Conduct(h, trace.log, input, next.out)
    && (next.out.Sent? ==> Waits(trace.log, input, next.out.req, next.session.wait))
    && Follows(Watch(h, trace.log, input, next.out), next)
  }

  predicate Expected(h: History, trace: Trace, input: Input) {
    h.Open? && Follows(h, trace) && Invariant(trace) && DetailInvariant(trace)
  }

  /** The car's check of a response is the observer's. */
  lemma PassesTheGood(h: History, trace: Trace, res: Response)
    requires h.Open? && Follows(h, trace) && Invariant(trace)
    ensures Passes(trace.session, res) <==> Good(h, trace.log, res)
  {
  }

  lemma GivingUpConduct(h: History, trace: Trace, input: Input)
    requires Expected(h, trace, input) && !Passes(trace.session, input.res)
    requires !trace.session.state.Welding? && !trace.session.state.CertificateInstallation?
    ensures Conducted(h, trace, input)
  {
    hide Step;
    hide DetailInvariant;
    hide LeavesServices;
    hide Arranged;
    hide Remembers;
    hide RemembersStop;
    PassesTheGood(h, trace, input.res);
    StoppedStep(trace.session, input.res, input.env);
  }

  /** What an exchange adds to the history, apart from the setup, the services and the schedule. */
  lemma QuietNext(h: History, trace: Trace, input: Input)
    requires h.Open? && !trace.log.lastSent.SessionSetupReq? && !trace.log.lastSent.ServiceDiscoveryReq?
    requires !trace.log.lastSent.ServiceDetailReq? && !trace.log.lastSent.ScheduleExchangeReq?
    ensures var next := Next(trace, input);
      && (next.session, next.out) == Step(trace.session, input.res, input.env)
      && Watch(h, trace.log, input, next.out) == (
           if !next.out.Sent? then Over
           else if next.out.req.ServiceSelectionReq? then Watch(h, trace.log, input, next.out)
           else h.(repeats := KindOf(next.out.req) == KindOf(trace.log.lastSent)))
      && (next.out.Sent? ==>
           && next.log.lastSent == next.out.req && next.log.found == trace.log.found
           && next.log.stop == if IsLoop(KindOf(trace.log.lastSent)) && next.out.req.PowerDeliveryReq? && next.out.req.progress.Stop?
                               then Some(StatusOf(input.res.body)) else trace.log.stop)
  {
    hide Step;
  }

  lemma SetupConduct(h: History, trace: Trace, input: Input)
    requires Expected(h, trace, input) && Passes(trace.session, input.res) && trace.session.state.SessionSetup?
    ensures Conducted(h, trace, input)
  {
    hide Step;
    hide DetailInvariant;
    hide LeavesServices;
    hide Arranged;
    SessionSetupStep(trace.session, input.res, input.env);
  }

  lemma AuthorizationSetupConduct(h: History, trace: Trace, input: Input)
    requires Expected(h, trace, input) && Passes(trace.session, input.res) && trace.session.state.AuthorizationSetup?
    ensures Conducted(h, trace, input)
  {
    hide Step;
    hide DetailInvariant;
    hide LeavesServices;
    hide Arranged;
    hide Next;
    hide Watch;
    hide FirstSetOf;
    hide ProperDetail;
    hide Matching;
    hide Prepared;
    hide TimerInvariant;
    hide ProperLoop;
    hide EndsProperly;
    hide ProperVas;
    hide Repeats;
    hide GivesUp;
    hide SentMatchesState;
    hide AfterDelivery;
    hide ProperDelivery;
    QuietNext(h, trace, input);
    AuthorizationSetupStep(trace.session, input.res, input.env);
  }

  lemma AuthorizationConduct(h: History, trace: Trace, input: Input)
    requires Expected(h, trace, input) && Passes(trace.session, input.res) && trace.session.state.Authorization?
    ensures Conducted(h, trace, input)
  {
    hide Step;
    hide DetailInvariant;
    hide LeavesServices;
    hide Arranged;
    hide Next;
    hide Watch;
    hide FirstSetOf;
    hide ProperDetail;
    hide Matching;
    QuietNext(h, trace, input);
    AuthorizationStep(trace.session, input.res, input.env);
  }

  lemma SelectionConduct(h: History, trace: Trace, input: Input)
    requires Expected(h, trace, input) && Passes(trace.session, input.res) && trace.session.state.ServiceSelection?
    ensures Conducted(h, trace, input)
  {
    hide Step;
    hide DetailInvariant;
    hide LeavesServices;
    hide Arranged;
    hide Next;
    hide Watch;
    hide FirstSetOf;
    hide ProperDetail;
    hide Matching;
    QuietNext(h, trace, input);
    ServiceSelectionStep(trace.session, input.res, input.env);
  }

  lemma ParametersConduct(h: History, trace: Trace, input: Input)
    requires Expected(h, trace, input) && Passes(trace.session, input.res) && (trace.session.state.AcParameters? || trace.session.state.DcParameters?)
    ensures Conducted(h, trace, input)
  {
    hide Step;
    hide DetailInvariant;
    hide LeavesServices;
    hide Arranged;
    hide Next;
    hide Watch;
    hide FirstSetOf;
    hide ProperDetail;
    hide Matching;
    QuietNext(h, trace, input);
    ChargeParametersStep(trace.session, input.res, input.env);
  }

  lemma ScheduleNext(h: History, trace: Trace, input: Input)
    requires h.Open? && trace.log.lastSent.ScheduleExchangeReq? && input.res.body.ScheduleExchangeRes?
    ensures var next, body := Next(trace, input), input.res.body;
      && (next.session, next.out) == Step(trace.session, input.res, input.env)
      && (next.out.Sent? ==>
           && next.log.lastSent == next.out.req && next.log.found == trace.log.found && next.log.stop == trace.log.stop
           && (!next.out.req.ServiceSelectionReq? ==>
                Watch(h, trace.log, input, next.out) ==
                  h.(repeats := KindOf(next.out.req) == KScheduleExchange,
                     offer := if body.processing.Ongoing? then h.offer else Offer(body.tuples, body.goToPause))))
      && (!next.out.Sent? ==> Watch(h, trace.log, input, next.out) == Over)
  {
    hide Step;
  }

  lemma ScheduleConduct(h: History, trace: Trace, input: Input)
    requires Expected(h, trace, input) && Passes(trace.session, input.res) && trace.session.state.ScheduleExchange?
    ensures Conducted(h, trace, input)
  {
    hide Step;
    hide DetailInvariant;
    hide LeavesServices;
    hide Arranged;
    hide FirstSetOf;
    hide ProperDetail;
    hide Matching;
    hide TimerInvariant;
    hide AfterDelivery;
    hide ProperLoop;
    hide EndsProperly;
    hide ProperVas;
    hide Repeats;
    hide GivesUp;
    hide Next;
    hide Watch;
    ScheduleNext(h, trace, input);
    ScheduleExchangeStep(trace.session, input.res, input.env);
  }

  lemma CableCheckConduct(h: History, trace: Trace, input: Input)
    requires Expected(h, trace, input) && Passes(trace.session, input.res) && trace.session.state.CableCheck?
    ensures Conducted(h, trace, input)
  {
    hide Step;
    hide DetailInvariant;
    hide LeavesServices;
    hide Arranged;
    hide Next;
    hide Watch;
    hide FirstSetOf;
    hide ProperDetail;
    hide Matching;
    QuietNext(h, trace, input);
    CableCheckStep(trace.session, input.res, input.env);
  }

  lemma PreChargeConduct(h: History, trace: Trace, input: Input)
    requires Expected(h, trace, input) && Passes(trace.session, input.res) && trace.session.state.PreCharge?
    ensures Conducted(h, trace, input)
  {
    hide Step;
    hide DetailInvariant;
    hide LeavesServices;
    hide Arranged;
    hide Next;
    hide Watch;
    hide FirstSetOf;
    hide ProperDetail;
    hide Matching;
    QuietNext(h, trace, input);
    PreChargeStep(trace.session, input.res, input.env);
  }

  lemma DeliveryConduct(h: History, trace: Trace, input: Input)
    requires Expected(h, trace, input) && Passes(trace.session, input.res) && trace.session.state.PowerDelivery?
    ensures Conducted(h, trace, input)
  {
    hide Step;
    hide DetailInvariant;
    hide LeavesServices;
    hide Arranged;
    hide Next;
    hide Watch;
    hide FirstSetOf;
    hide ProperDetail;
    hide Matching;
    hide TimerInvariant;
    hide ProperLoop;
    hide EndsProperly;
    hide ProperVas;
    hide Repeats;
    hide GivesUp;
    hide SentMatchesState;
    PassesTheGood(h, trace, input.res);
    hide Good;
    hide Passes;
    QuietNext(h, trace, input);
    PowerDeliveryStep(trace.session, input.res, input.env);
  }

  lemma LoopConduct(h: History, trace: Trace, input: Input)
    requires Expected(h, trace, input) && Passes(trace.session, input.res) && (trace.session.state.AcLoop? || trace.session.state.DcLoop?)
    ensures Conducted(h, trace, input)
  {
    hide Step;
    hide DetailInvariant;
    hide LeavesServices;
    hide Arranged;
    hide Next;
    hide Watch;
    hide FirstSetOf;
    hide ProperDetail;
    hide Matching;
    hide TimerInvariant;
    hide AfterDelivery;
    hide ProperDelivery;
    hide EndsProperly;
    hide ProperVas;
    hide OnLoop;
    hide Repeats;
    hide GivesUp;
    hide SentMatchesState;
    QuietNext(h, trace, input);
    PassesTheGood(h, trace, input.res);
    assert input.res.body.AcLoopRes? || input.res.body.DcLoopRes?;
    hide Good;
    hide Passes;
    LoopStep(trace.session, input.res, input.env);
    var status := StatusOf(input.res.body);
    assert status.Some? ==> status.value.NotifyTerminate? || status.value.NotifyServiceRenegotiation? || status.value.NotifyOther?;
    LoopReaction(trace.session, status, input.env);
  }

  lemma StopConduct(h: History, trace: Trace, input: Input)
    requires Expected(h, trace, input) && Passes(trace.session, input.res) && trace.session.state.SessionStop?
    ensures Conducted(h, trace, input)
  {
    hide Step;
    hide DetailInvariant;
    hide LeavesServices;
    hide Arranged;
    hide Next;
    hide Watch;
    hide FirstSetOf;
    hide ProperDetail;
    hide Matching;
    QuietNext(h, trace, input);
    SessionStopStep(trace.session, input.res, input.env);
  }

  lemma WeldingConduct(h: History, trace: Trace, input: Input)
    requires Expected(h, trace, input) && trace.session.state.Welding?
    ensures Conducted(h, trace, input)
  {
    hide Step;
    hide DetailInvariant;
    hide LeavesServices;
    hide Arranged;
    hide Next;
    hide Watch;
    hide FirstSetOf;
    hide ProperDetail;
    hide Matching;
    QuietNext(h, trace, input);
    UncheckedStep(trace.session, input.res, input.env);
  }

  lemma InstallationConduct(h: History, trace: Trace, input: Input)
    requires Expected(h, trace, input) && trace.session.state.CertificateInstallation?
    ensures Conducted(h, trace, input)
  {
    hide Step;
    hide DetailInvariant;
    hide LeavesServices;
    hide Arranged;
    hide Next;
    hide Watch;
    hide FirstSetOf;
    hide ProperDetail;
    hide Matching;
    QuietNext(h, trace, input);
    UncheckedStep(trace.session, input.res, input.env);
  }

  lemma DiscoveryArranges(found: seq<Service>, vas: seq<Service>)
    ensures Arranged(Entries(found, true) + Entries(vas, false), found, vas)
  {
  }

  /** What a discovery leaves behind, in terms of the first request after it. */
  lemma DiscoveryNext(h: History, trace: Trace, input: Input)
    requires Expected(h, trace, input) && Passes(trace.session, input.res) && trace.session.state.ServiceDiscovery?
    ensures var next, body := Next(trace, input), input.res.body;
      var found := Matching(body.energy, input.env.supported);
      && trace.log.lastSent == ServiceDiscoveryReq && body.ServiceDiscoveryRes?
      && (next.session, next.out) == OnServiceDiscovery(trace.session, body.renegotiation, body.energy, body.vas, input.env)
      && trace.session.matched == [] && trace.session.toRequest == []
      && next.out == Sent(if found == [] then SessionStopReq(ChargingSession.Terminate) else ServiceDetailReq(found[|found| - 1]))
      && next.session.wait == (if found == [] then 2.0 else 5.0)
      && next.log.lastSent == next.out.req && next.log.found == found && next.log.stop == trace.log.stop
      && Watch(h, trace.log, input, next.out) == h.(repeats := false, renegotiation := body.renegotiation, vas := body.vas)
  {
    hide Step;
    hide OnServiceDiscovery;
    hide Matching;
    ServiceDiscoveryStep(trace.session, input.res, input.env);
    DiscoveryEffect(trace.session, input.res.body.renegotiation, input.res.body.energy, input.res.body.vas, input.env);
    DiscoveryWaits(trace.session, input.res.body, input.env);
  }

  lemma DiscoveryWaits(s: Session, body: ResponseBody, env: Env)
    requires body.ServiceDiscoveryRes? && s.matched == [] && s.toRequest == []
    ensures var (s', out) := OnServiceDiscovery(s, body.renegotiation, body.energy, body.vas, env);
      && s'.wait == (if Matching(body.energy, env.supported) == [] then 2.0 else 5.0)
      && s'.sid == s.sid && s'.offer == s.offer && s'.renegotiationSupported == body.renegotiation
      && s'.renegotiationRequested == s.renegotiationRequested && s'.evProcessing == s.evProcessing
      && s'.stop == if Matching(body.energy, env.supported) == [] then Some(ChargingSession.Terminate) else s.stop
  {
    hide Matching;
    var found := Matching(body.energy, env.supported);
    assert [] + Entries(found, true) == Entries(found, true) && [] + found == found;
  }

  lemma DiscoveryConduct(h: History, trace: Trace, input: Input)
    requires Expected(h, trace, input) && Passes(trace.session, input.res) && trace.session.state.ServiceDiscovery?
    ensures Conducted(h, trace, input)
  {
    hide Step;
    hide DetailInvariant;
    hide LeavesServices;
    hide Arranged;
    hide Next;
    hide Watch;
    hide Matching;
    hide OnServiceDiscovery;
    hide Entries;
    hide FirstSetOf;
    hide ProperDetail;
    hide ProperLoop;
    hide AfterDelivery;
    hide ProperDelivery;
    hide EndsProperly;
    hide Prepared;
    hide TimerInvariant;
    hide AmongServices;
    PassesTheGood(h, trace, input.res);
    hide Good;
    hide Passes;
    DiscoveryNext(h, trace, input);
    var body := input.res.body;
    DiscoveryWaits(trace.session, body, input.env);
    DiscoveryEffect(trace.session, body.renegotiation, body.energy, body.vas, input.env);
    DiscoveryArranges(Matching(body.energy, input.env.supported), body.vas);
  }

  lemma ArrangedRest(matched: seq<MatchedService>, found: seq<Service>, vas: seq<Service>)
    requires Arranged(matched, found, vas) && found != []
    ensures matched[0].isEnergy && Arranged(matched[1..], found[1..], vas)
  {
    assert forall i :: 0 <= i < |matched| - 1 ==> matched[1..][i] == matched[i + 1];
  }

  lemma ArrangedVas(matched: seq<MatchedService>, vas: seq<Service>)
    requires Arranged(matched, [], vas) && vas != []
    ensures !matched[0].isEnergy && matched[0].service == vas[0] && Arranged(matched[1..], [], vas[1..])
  {
    assert forall i :: 0 <= i < |matched| - 1 ==> matched[1..][i] == matched[i + 1];
  }

  /** One more value-added service in front. */
  lemma ProperVasGrows(service: Service, vas: seq<Service>, published: map<Service, seq<ParameterSet>>,
                       diagnostic: Option<Service>, picks: seq<Pick>)
    requires ProperVas(vas, published, diagnostic, picks)
    ensures diagnostic.None? ==> ProperVas([service] + vas, published, diagnostic, [PickOf(service, published)] + picks)
    ensures diagnostic == Some(service) ==> ProperVas([service] + vas, published, diagnostic, [PickOf(service, published)])
    ensures diagnostic.Some? && diagnostic.value != service ==> ProperVas([service] + vas, published, diagnostic, picks)
  {
    if diagnostic.None? {
      var all, more := [service] + vas, [PickOf(service, published)] + picks;
      forall k | 0 <= k < |all| ensures more[k] == PickOf(all[k], published) {
        assert k > 0 ==> all[k] == vas[k - 1] && more[k] == picks[k - 1];
      }
    }
  }

  /** The value-added services behind the energy entries. */
  lemma {:induction false} VasSelected(matched: seq<MatchedService>, found: seq<Service>, vas: seq<Service>,
                                       published: map<Service, seq<ParameterSet>>, diagnostic: Option<Service>)
    requires Arranged(matched, found, vas)
    requires forall i :: 0 <= i < |matched| ==>
      matched[i].sets == if matched[i].service in published then published[matched[i].service] else []
    ensures ProperVas(vas, published, diagnostic, SelectVas(matched, diagnostic))
  {
    if matched != [] {
      var rest := matched[1..];
      assert forall i :: 0 <= i < |rest| ==> rest[i] == matched[i + 1];
      hide ProperVas;
      if found != [] {
        ArrangedRest(matched, found, vas);
        VasSelected(rest, found[1..], vas, published, diagnostic);
      } else {
        ArrangedVas(matched, vas);
        VasSelected(rest, [], vas[1..], published, diagnostic);
        assert vas == [vas[0]] + vas[1..];
        assert VasPick(matched[0]) == PickOf(vas[0], published);
        ProperVasGrows(vas[0], vas[1..], published, diagnostic, SelectVas(rest, diagnostic));
      }
    }
  }

  lemma StoringArranges(matched: seq<MatchedService>, found: seq<Service>, vas: seq<Service>, service: Service, sets: seq<ParameterSet>)
    requires Arranged(matched, found, vas)
    ensures Arranged(StoreAll(matched, service, sets), found, vas)
  {
  }

  lemma StoringPublishes(matched: seq<MatchedService>, found: seq<Service>, published: map<Service, seq<ParameterSet>>,
                         service: Service, sets: seq<ParameterSet>)
    requires Published(matched, found, published)
    ensures Published(StoreAll(matched, service, sets), found, published[service := sets])
  {
    var stored := StoreAll(matched, service, sets);
    forall i | 0 <= i < |stored|
      ensures stored[i].sets ==
        if stored[i].service in published[service := sets] then published[service := sets][stored[i].service] else []
    {
      assert stored[i] == Stored(matched[i], service, sets);
      assert matched[i].sets == if matched[i].service in published then published[matched[i].service] else [];
    }
    forall i | 0 <= i < |found| ensures stored[i].service == found[i] {
      assert stored[i] == Stored(matched[i], service, sets) && matched[i].service == found[i];
    }
  }

  /** The next pending detail is the match before the last one asked for. */
  lemma PendingDetail(found: seq<Service>, requested: seq<Service>, toRequest: seq<Service>)
    requires requested + Reverse(toRequest) == Reverse(found)
    ensures |requested| + |toRequest| == |found|
    ensures toRequest != [] ==> toRequest[|toRequest| - 1] == found[|found| - 1 - |requested|]
  {
    var pending, all := Reverse(toRequest), Reverse(found);
    hide Reverse;
    assert |requested + pending| == |all|;
    if toRequest != [] {
      assert (requested + pending)[|requested|] == pending[0];
    }
  }

  /** What is left alone by the choice of a service. */
  predicate SameProgress(s: Session, s': Session) {
    && s'.sid == s.sid && s'.renegotiationSupported == s.renegotiationSupported && s'.offer == s.offer
    && s'.evProcessing == s.evProcessing && s'.stop == s.stop && s'.renegotiationRequested == s.renegotiationRequested
  }

  /** With all details stored: the first match, its first set and the value-added services. */
  lemma LastDetailProper(s: Session, found: seq<Service>, vas: seq<Service>, published: map<Service, seq<ParameterSet>>, env: Env)
    requires s.toRequest == [] && found != []
    requires Published(s.matched, found, published) && Arranged(s.matched, found, vas)
    ensures var (s', out) := AfterDetail(s, env);
      && SameProgress(s, s')
      && if found[0] !in published || published[found[0]] == [] then out.Raised? && s'.state.Terminated?
         else
           var chosen := published[found[0]][0];
           && s'.wait == 2.0 && s'.selected == Some(SelectedService(found[0], chosen))
           && if chosen.modes == [] then out == Sent(SessionStopReq(ChargingSession.Terminate)) && s'.state.SessionStop?
              else
                && s'.state.ServiceSelection? && s'.mode == ModeOf(chosen)
                && out.Sent? && out.req.ServiceSelectionReq? && out.req.energy == Pick(found[0], chosen.id)
                && ProperVas(vas, published, env.diagnostic, out.req.vas)
  {
    hide ProperVas;
    VasSelected(s.matched, found, vas, published, env.diagnostic);
    assert s.matched[0].service == found[0];
    if s.matched[0].sets != [] {
      SelectionEffect(s, env);
    }
  }

  lemma NextDetailProper(s: Session, env: Env)
    requires s.toRequest != []
    ensures var (s', out) := AfterDetail(s, env);
      && SameProgress(s, s') && s'.wait == 5.0 && s'.state.ServiceDetail? && s'.matched == s.matched
      && out == Sent(ServiceDetailReq(s.toRequest[|s.toRequest| - 1]))
  {
  }

  lemma DetailNext(h: History, trace: Trace, input: Input)
    requires Expected(h, trace, input) && Passes(trace.session, input.res) && trace.session.state.ServiceDetail?
    ensures var next, log, body := Next(trace, input), trace.log, input.res.body;
      && log.lastSent.ServiceDetailReq? && body.ServiceDetailRes?
      && (next.out.Sent? ==>
           && next.log.lastSent == next.out.req && next.log.found == log.found && next.log.stop == log.stop
           && Watch(h, log, input, next.out) ==
                if next.out.req.ServiceSelectionReq? then
                  h.(repeats := false, energy := Some(next.out.req.energy.service),
                     mode := (var chosen := FirstSetOf(log.(published := log.published[body.service := body.sets]));
                              if chosen.Some? then ModeOf(chosen.value) else h.mode))
                else h.(repeats := next.out.req.ServiceDetailReq?))
      && (!next.out.Sent? ==> Watch(h, log, input, next.out) == Over)
  {
    hide Step;
    hide ModeOf;
    hide Prepared;
    hide TimerInvariant;
    hide Arranged;
    hide Reverse;
    hide Published;
    ServiceDetailStep(trace.session, input.res, input.env);
    hide OnServiceDetail;
  }

  lemma DetailConduct(h: History, trace: Trace, input: Input)
    requires Expected(h, trace, input) && Passes(trace.session, input.res) && trace.session.state.ServiceDetail?
    ensures Conducted(h, trace, input)
  {
    hide Step;
    hide LeavesServices;
    hide Next;
    hide Watch;
    hide Arranged;
    hide Published;
    hide AfterDetail;
    hide ProperVas;
    hide ModeOf;
    hide AfterDelivery;
    hide ProperDelivery;
    hide ProperLoop;
    hide EndsProperly;
    hide Prepared;
    hide TimerInvariant;
    hide AmongServices;
    hide Reverse;
    hide StoreAll;
    hide Matching;
    hide SelectVas;
    PassesTheGood(h, trace, input.res);
    hide Good;
    hide Passes;
    var log, body := trace.log, input.res.body;
    var s := trace.session.(matched := StoreAll(trace.session.matched, body.service, body.sets));
    var published := log.published[body.service := body.sets];
    DetailShape(trace, input);
    DetailNext(h, trace, input);
    StoringArranges(trace.session.matched, log.found, h.vas, body.service, body.sets);
    StoringPublishes(trace.session.matched, log.found, log.published, body.service, body.sets);
    PendingDetail(log.found, log.requested, s.toRequest);
    if s.toRequest != [] {
      NextDetailProper(s, input.env);
    } else {
      LastDetailProper(s, log.found, h.vas, published, input.env);
    }
  }

  lemma StepConduct(h: History, trace: Trace, input: Input)
    requires Follows(h, trace) && Invariant(trace) && DetailInvariant(trace)
    ensures Conducted(h, trace, input)
  {
    hide Conducted;
    hide Follows;
    hide Invariant;
    hide DetailInvariant;
    hide Passes;
    if h.Over? {
      OverConduct(h, trace, input);
    } else {
      OpenIsAlive(h, trace);
      match trace.session.state
      case Welding(_, _) => WeldingConduct(h, trace, input);
      case CertificateInstallation => InstallationConduct(h, trace, input);
      case _ =>
        if Passes(trace.session, input.res) {
          PassingConduct(h, trace, input);
        } else {
          GivingUpConduct(h, trace, input);
        }
    }
  }

  lemma PassingConduct(h: History, trace: Trace, input: Input)
    requires Expected(h, trace, input) && Passes(trace.session, input.res)
    requires !trace.session.state.Welding? && !trace.session.state.CertificateInstallation? && !trace.session.state.Terminated?
    ensures Conducted(h, trace, input)
  {
    hide Conducted;
    hide Expected;
    hide Passes;
    match trace.session.state
    case SessionSetup => SetupConduct(h, trace, input);
    case AuthorizationSetup => AuthorizationSetupConduct(h, trace, input);
    case Authorization => AuthorizationConduct(h, trace, input);
    case ServiceDiscovery => DiscoveryConduct(h, trace, input);
    case ServiceDetail => DetailConduct(h, trace, input);
    case ServiceSelection => SelectionConduct(h, trace, input);
    case AcParameters => ParametersConduct(h, trace, input);
    case DcParameters => ParametersConduct(h, trace, input);
    case ScheduleExchange => ScheduleConduct(h, trace, input);
    case CableCheck(_) => CableCheckConduct(h, trace, input);
    case PreCharge(_, _) => PreChargeConduct(h, trace, input);
    case PowerDelivery => DeliveryConduct(h, trace, input);
    case AcLoop => LoopConduct(h, trace, input);
    case DcLoop(_) => LoopConduct(h, trace, input);
    case SessionStop => StopConduct(h, trace, input);
  }

  lemma OpenIsAlive(h: History, trace: Trace)
    requires h.Open? && Follows(h, trace)
    ensures !trace.session.state.Terminated?
  {
  }

  lemma OverConduct(h: History, trace: Trace, input: Input)
    requires h.Over? && Follows(h, trace)
    ensures Conducted(h, trace, input)
  {
    hide Step;
    UncheckedStep(trace.session, input.res, input.env);
  }

  lemma {:induction false} RunFollows(inputs: seq<Input>)
    ensures Follows(Watched(inputs), Run(inputs))
  {
    hide Next;
    hide Invariant;
    hide DetailInvariant;
    hide Watch;
    if inputs == [] {
      BeginningFollows();
    } else {
      var n := |inputs| - 1;
      RunFollows(inputs[..n]);
      RunKeepsInvariant(inputs[..n]);
      RunKeepsDetails(inputs[..n]);
      StepConduct(Watched(inputs[..n]), Run(inputs[..n]), inputs[n]);
    }
  }

  lemma BeginningFollows()
    ensures Follows(Beginning, Run([]))
  {
  }

  /**
   Whatever the station has answered before: the next request, or the way the session ends,
   is the proper reaction in the eyes of an observer of the wire and the controller's answers,
   and the car waits as long as that request deserves.
   */
  lemma ReactionsAreProper(inputs: seq<Input>, input: Input)
    ensures var h, log, next := Watched(inputs), Run(inputs).log, Run(inputs + [input]);
      && Conduct(h, log, input, next.out)
      && (next.out.Sent? ==> Waits(log, input, next.out.req, next.session.wait))
  {
    hide Next;
    hide Follows;
    hide Conduct;
    assert (inputs + [input])[..|inputs|] == inputs;
    RunFollows(inputs);
    RunKeepsInvariant(inputs);
    RunKeepsDetails(inputs);
    StepConduct(Watched(inputs), Run(inputs), input);
  }

  /**
   What a stop means. Once the car has answered a loop response with a stop, it remembers a
   renegotiation exactly when that response notified one, and a full stop otherwise; and a
   session that was stopped by a full battery or a Terminate notification completes with a
   good response to its session stop.
   */
  lemma StopMeansTheNotification(inputs: seq<Input>, last: Input)
    ensures var s, log := Run(inputs).session, Run(inputs).log;
      s.state.Terminated? || log.stop.None? ||
      (&& s.stop == Some(if log.stop == Some(Some(NotifyServiceRenegotiation)) then ServiceRenegotiation else ChargingSession.Terminate)
       && (s.state.SessionStop? && Passes(s, last.res) && log.stop != Some(Some(NotifyServiceRenegotiation)) ==>
            Step(s, last.res, last.env).1 == Quit(None, true)))
  {
    hide Step;
    RunFollows(inputs);
    RunKeepsInvariant(inputs);
    RunKeepsDetails(inputs);
    StopMeansIt(Watched(inputs), Run(inputs), last);
  }

  lemma StopMeansIt(h: History, trace: Trace, last: Input)
    requires Follows(h, trace) && Invariant(trace) && DetailInvariant(trace)
    ensures var s, log := trace.session, trace.log;
      s.state.Terminated? || log.stop.None? ||
      (&& s.stop == Some(if Renegotiates(log) then ServiceRenegotiation else ChargingSession.Terminate)
       && (s.state.SessionStop? && Passes(s, last.res) && !Renegotiates(log) ==> Step(s, last.res, last.env).1 == Quit(None, true)))
  {
    hide Step;
    hide DetailInvariant;
    if h.Open? && trace.session.state.SessionStop? {
      PassesTheGood(h, trace, last.res);
      SessionStopStep(trace.session, last.res, last.env);
    }
  }

  /** The history as the messages alone show it. */
  function WatchedIn(inputs: seq<Input>, outs: seq<Outcome>): History
    requires |inputs| == |outs|
  {
    if inputs == [] then Beginning
    else
      var n := |inputs| - 1;
      Watch(WatchedIn(inputs[..n], outs[..n]), Observed(inputs[..n], outs[..n]), inputs[n], outs[n])
  }

  lemma {:induction false} HistoryIsWatched(inputs: seq<Input>)
    ensures Watched(inputs) == WatchedIn(inputs, Outcomes(inputs))
  {
    hide Step;
    hide Watch;
    if inputs != [] {
      var n := |inputs| - 1;
      HistoryIsWatched(inputs[..n]);
      LogIsObserved(inputs[..n]);
      SentOutcome(inputs);
      assert Outcomes(inputs)[..n] == Outcomes(inputs[..n]);
    }
  }

  /** Every request along a run is the proper reaction, in the eyes of the observer. */
  predicate ProperThroughout(inputs: seq<Input>, outs: seq<Outcome>)
    requires |inputs| == |outs|
  {
    forall i :: 0 <= i < |inputs| ==>
      Conduct(WatchedIn(inputs[..i], outs[..i]), Observed(inputs[..i], outs[..i]), inputs[i], outs[i])
  }

  lemma ProperAt(inputs: seq<Input>, i: nat)
    requires i < |inputs|
    ensures var outs := Outcomes(inputs);
      Conduct(WatchedIn(inputs[..i], outs[..i]), Observed(inputs[..i], outs[..i]), inputs[i], outs[i])
  {
    hide Run;
    hide Outcomes;
    hide Conduct;
    hide Watch;
    hide Observe;
    var before := inputs[..i];
    OutcomesPrefix(inputs, i);
    OutcomesPrefix(inputs, i + 1);
    assert inputs[..i + 1] == before + [inputs[i]];
    assert Outcomes(inputs)[i] == Outcomes(inputs)[..i + 1][i];
    SentOutcome(inputs[..i + 1]);
    HistoryIsWatched(before);
    LogIsObserved(before);
    ReactionsAreProper(before, inputs[i]);
  }

  lemma AllProper(inputs: seq<Input>)
    ensures ProperThroughout(inputs, Outcomes(inputs))
  {
    hide Run;
    hide Outcomes;
    hide Observed;
    hide WatchedIn;
    hide Conduct;
    forall i | 0 <= i < |inputs|
      ensures var outs := Outcomes(inputs);
        Conduct(WatchedIn(inputs[..i], outs[..i]), Observed(inputs[..i], outs[..i]), inputs[i], outs[i])
    {
      ProperAt(inputs, i);
    }
  }
}
