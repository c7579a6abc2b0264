/**
 The SECC session object of ISO 15118-20 and its state handlers, field by field.

 `current` is the state object the session holds; a handler that meets a message of
 another kind first overwrites it with a fresh state, as the constructor of every state
 object does, and then lets that state process the message.
 */
module SeccSessions {
  import opened Options
  import opened Messages
  import opened SeccProtocol
  import Conduct = SeccConduct
  import Safety = SeccSafety

  /** `next_state`: stay, go to a state class, or Terminate. */
  datatype Next = Stay | To(state: State) | End

  class SeccSession {
    var current: State
    var next: Next
    var sid: string
    var matched: seq<MatchedService>
    var selected: Option<SelectedService>
    var selectedVas: seq<SelectedService>
    var mode: Option<ControlMode>
    var offeredTuples: seq<int>
    var hlc: bool

    constructor ()
      ensures Settled() == Initial
      ensures next == Stay
    {
      current, next, sid := State.SessionSetup, Stay, "";
      matched, selected, selectedVas, mode := [], None, [], None;
      offeredTuples, hlc := [], false;
    }

    /** The session as it stands once `go_to_next_state` has run. */
    function Settled(): Session
      reads this
    {
      var state := match next case Stay => current case To(state) => state case End => State.Terminated;
      Session(state, sid, matched, selected, mode, offeredTuples, hlc)
    }

    /** One turn of the receive loop: process the message, then move to the next state. */
    method ProcessMessage(sid: string, req: Request, env: Env) returns (out: Outcome)
      requires next == Stay
      modifies this
      ensures next == Stay
      ensures (Settled(), out) == old(Step(Settled(), sid, req, env))
    {
      if current.SessionSetup? || current.AuthorizationSetup? || current.CertificateInstallation? || current.Authorization?
         || current.ServiceDiscovery? || current.ServiceDetail? || current.ServiceSelection? {
        out := ProcessInSetup(sid, req, env);
      } else if current.Terminated? {
        out := Raised;
      } else if current.AcParameters? || current.DcParameters? || current.ScheduleExchange? || current.CableCheck? || current.PreCharge? {
        out := ProcessInPreparation(sid, req, env);
      } else {
        out := ProcessInCharging(sid, req, env);
      }
      GoToNextState();
    }

    /** A whole session: every message is processed in turn. */
    method ReceiveAll(inputs: seq<Safety.Input>) returns (outs: seq<Outcome>)
      requires next == Stay && Settled() == Initial
      modifies this
      ensures next == Stay && Settled() == Safety.Run(inputs).session && outs == Safety.Outcomes(inputs)
      ensures Safety.InLoop(current) ==>
        (Safety.LoopEarned(Settled(), Safety.Observed(inputs, outs)) <==>
          !Safety.EarlyRenegotiated(inputs) && Safety.AcceptedWasServed(Safety.Observed(inputs, outs)))
      ensures Safety.InLoop(current) && Safety.HarmlessRun(inputs) ==> Safety.AcceptedWasServed(Safety.Observed(inputs, outs))
      ensures !current.Terminated? ==> (hlc <==> Safety.Observed(inputs, outs).started.Some?)
      ensures Conduct.ProperThroughout(inputs, outs)
      ensures forall sid, req :: Passes(Settled(), sid, req) <==>
        Conduct.Welcome(Conduct.WatchedIn(inputs, outs), Safety.Observed(inputs, outs), sid, req)
    {
      hide Step;
      hide Passes;
      outs := [];
      for i := 0 to |inputs|
        invariant next == Stay && Settled() == Safety.Run(inputs[..i]).session
        invariant outs == Safety.Outcomes(inputs[..i])
      {
        assert inputs[..i + 1][..i] == inputs[..i];
        var out := ProcessMessage(inputs[i].sid, inputs[i].req, inputs[i].env);
        outs := outs + [out];
      }
      assert inputs[..|inputs|] == inputs;
      Safety.LogIsObserved(inputs);
      Safety.ChargeLoopIsEarned(inputs);
      Safety.HlcFollowsStartAndStop(inputs);
      Conduct.AllProper(inputs);
      Conduct.NextWelcome(inputs);
    }

    /** The states up to the selection of a service. */
    method ProcessInSetup(sid: string, req: Request, env: Env) returns (out: Outcome)
      requires next == Stay
      requires current.SessionSetup? || current.AuthorizationSetup? || current.CertificateInstallation? || current.Authorization?
        || current.ServiceDiscovery? || current.ServiceDetail? || current.ServiceSelection?
      modifies this
      ensures (Settled(), out) == old(Step(Settled(), sid, req, env))
    {
      hide Step;
      if current.CertificateInstallation? {
        InstallationStateStep(Settled(), sid, req, env);
      } else {
        }
      match current
      case SessionSetup => out := ProcessSessionSetup(sid, req, env);
      case AuthorizationSetup(_) => out := ProcessAuthorizationSetup(sid, req, env);
      case CertificateInstallation => out := ProcessCertificateInstallation(sid, req, env);
      case Authorization(_) => out := ProcessAuthorization(sid, req, env);
      case ServiceDiscovery(_) => out := ProcessServiceDiscovery(sid, req, env);
      case ServiceDetail(_) => out := ProcessServiceDetail(sid, req, env);
      case ServiceSelection => out := ProcessServiceSelection(sid, req, env);
    }

    /** The states from charge-parameter discovery to precharge. */
    method ProcessInPreparation(sid: string, req: Request, env: Env) returns (out: Outcome)
      requires next == Stay
      requires current.AcParameters? || current.DcParameters? || current.ScheduleExchange? || current.CableCheck? || current.PreCharge?
      modifies this
      ensures (Settled(), out) == old(Step(Settled(), sid, req, env))
    {
      hide Step;
      match current {
      case AcParameters => out := ProcessChargeParameters(sid, req, env);
      case DcParameters => out := ProcessChargeParameters(sid, req, env);
      case ScheduleExchange => out := ProcessScheduleExchange(sid, req, env);
      case CableCheck(_, _) => out := ProcessCableCheck(sid, req, env);
      case PreCharge(_) => out := ProcessPreCharge(sid, req, env);
      }
    }

    /** The states from power delivery to the end of the session. */
    method ProcessInCharging(sid: string, req: Request, env: Env) returns (out: Outcome)
      requires next == Stay
      requires current.PowerDelivery? || current.SessionStop? || current.AcLoop? || current.DcLoop? || current.Welding?
      modifies this
      ensures (Settled(), out) == old(Step(Settled(), sid, req, env))
    {
      hide Step;
      match current {
      case PowerDelivery => out := ProcessPowerDelivery(sid, req, env);
      case SessionStop => out := ProcessSessionStop(sid, req, env);
      case AcLoop => out := ProcessAcLoop(sid, req, env);
      case DcLoop(_) => out := ProcessDcLoop(sid, req, env);
      case Welding(_) => out := ProcessWelding(sid, req, env);
      }
    }

    method GoToNextState()
      modifies this`current, this`next
      ensures next == Stay && Settled() == old(Settled())
    {
      match next {
        case Stay =>
        case To(state) => current := state;
        case End => current := State.Terminated;
      }
      next := Stay;
    }

    /** `check_msg`: refuses, or leaves the session untouched and returns true. */
    method CheckMessage(sid: string, req: Request) returns (ok: bool, out: Outcome)
      requires next == Stay && !current.Terminated?
      modifies this`next
      ensures ok == Passes(old(Settled()), sid, req)
      ensures ok ==> next == Stay
      ensures !ok ==> (Settled(), out) == Refuse(old(Settled()), req)
    {
      ok, out := true, Raised;
      var expected := ExpectedKinds(current);
      var found := false;
      var i := 0;
      while i < |expected|
        invariant 0 <= i <= |expected|
        invariant !found && KindOf(req) !in expected[..i]
        invariant i > 0 ==> !FirstOnly(current)
      {
        if i == 0 && FirstOnly(current) && KindOf(req) != expected[i] {
          break;
        }
        if KindOf(req) == expected[i] {
          found := true;
          break;
        }
        i := i + 1;
      }
      assert !found && i == |expected| ==> expected[..i] == expected;
      ExpectedKindsAreAccepted(current, KindOf(req));
      if !found || (!req.SessionSetupReq? && sid != this.sid) {
        ok := false;
        out := StopStateMachine(req);
      }
    }

    method StopStateMachine(req: Request) returns (out: Outcome)
      modifies this`next
      ensures (Settled(), out) == Refuse(old(Settled()), req)
      ensures next == End
    {
      next := End;
      out := Replied(Response(sid, true, FailedBody(req)));
    }

    method Reply(next: Next, body: ResponseBody) returns (out: Outcome)
      modifies this`next
      ensures this.next == next && out == Replied(Response(sid, false, body))
    {
      this.next := next;
      out := Replied(Response(sid, false, body));
    }

    method ProcessSessionSetup(sid: string, req: Request, env: Env) returns (out: Outcome)
      requires next == Stay && current.SessionSetup?
      modifies this
      ensures (Settled(), out) == old(Step(Settled(), sid, req, env))
    {
      hide Step;
      ghost var before := Settled();
      var ok;
      ok, out := CheckMessage(sid, req);
      if !ok {
        RefusedStep(before, sid, req, env);
        return;
      }
      SessionSetupStep(before, sid, req, env);
      var id := env.freshSid;
      if sid == "00" {
      } else if sid == this.sid {
        id := this.sid;
      }
      this.sid := id;
      out := Reply(To(State.AuthorizationSetup(true)), SessionSetupRes);
    }

    method ProcessAuthorizationSetup(sid: string, req: Request, env: Env) returns (out: Outcome)
      requires next == Stay && current.AuthorizationSetup?
      modifies this
      ensures (Settled(), out) == old(Step(Settled(), sid, req, env))
    {
      hide Step;
      ghost var before := Settled();
      var ok;
      ok, out := CheckMessage(sid, req);
      if !ok {
        RefusedStep(before, sid, req, env);
        return;
      }
      if req.AuthorizationSetupReq? {
        AuthorizationSetupStep(before, sid, req, env);
      }
      if req.CertificateInstallationReq? {
        HandedOn(before, State.CertificateInstallation, sid, req, env);
        current := State.CertificateInstallation;
        out := ProcessCertificateInstallation(sid, req, env);
      } else if req.AuthorizationReq? {
        HandedOn(before, State.Authorization(true), sid, req, env);
        current := State.Authorization(true);
        out := ProcessAuthorization(sid, req, env);
      } else if req.SessionStopReq? {
        HandedOn(before, State.SessionStop, sid, req, env);
        current := State.SessionStop;
        out := ProcessSessionStop(sid, req, env);
      } else {
        out := Reply(Stay, AuthorizationSetupRes(env.certInstallService, env.pncOffered));
        current := State.AuthorizationSetup(false);
      }
    }

    /** CertificateInstallation raises NotImplementedError before it looks at the message. */
    method ProcessCertificateInstallation(sid: string, req: Request, env: Env) returns (out: Outcome)
      requires next == Stay && current.CertificateInstallation?
      modifies this
      ensures (Settled(), out) == old(Step(Settled(), sid, req, env))
    {
      next, out := End, Raised;
    }

    method ProcessAuthorization(sid: string, req: Request, env: Env) returns (out: Outcome)
      requires next == Stay && current.Authorization?
      modifies this
      ensures (Settled(), out) == old(Step(Settled(), sid, req, env))
    {
      hide Step;
      ghost var before := Settled();
      var ok;
      ok, out := CheckMessage(sid, req);
      if !ok {
        RefusedStep(before, sid, req, env);
        return;
      }
      if req.AuthorizationReq? {
        AuthorizationStep(before, sid, req, env);
      }
      if req.CertificateInstallationReq? {
        HandedOn(before, State.CertificateInstallation, sid, req, env);
        current := State.CertificateInstallation;
        out := ProcessCertificateInstallation(sid, req, env);
        return;
      }
      if req.ServiceDiscoveryReq? {
        HandedOn(before, State.ServiceDiscovery(true), sid, req, env);
        current := State.ServiceDiscovery(true);
        out := ProcessServiceDiscovery(sid, req, env);
        return;
      }
      if req.SessionStopReq? {
        HandedOn(before, State.SessionStop, sid, req, env);
        current := State.SessionStop;
        out := ProcessSessionStop(sid, req, env);
        return;
      }
      if req.signed && !env.signatureValid {
        out := StopStateMachine(req);
        return;
      }
      var processing := Ongoing;
      if env.authorization.Accepted? {
        processing := Finished;
      } else if env.authorization.StillOngoing? {
        processing := if req.pnc then Ongoing else WaitingForCustomer;
      } else {
        processing := Finished;
      }
      out := Replied(Response(this.sid, env.authCodeFailed, AuthorizationRes(processing)));
      current := State.Authorization(processing != Finished);
    }

    method ProcessServiceDiscovery(sid: string, req: Request, env: Env) returns (out: Outcome)
      requires next == Stay && current.ServiceDiscovery?
      modifies this
      ensures (Settled(), out) == old(Step(Settled(), sid, req, env))
    {
      hide Step;
      hide Offered;
      hide OfferedVas;
      hide VasServices;
      ghost var before := Settled();
      var ok;
      ok, out := CheckMessage(sid, req);
      if !ok {
        RefusedStep(before, sid, req, env);
        return;
      }
      if req.ServiceDiscoveryReq? {
        ServiceDiscoveryStep(before, sid, req, env);
      }
      if req.ServiceDetailReq? {
        HandedOn(before, State.ServiceDetail(true), sid, req, env);
        current := State.ServiceDetail(true);
        out := ProcessServiceDetail(sid, req, env);
        return;
      }
      if req.SessionStopReq? {
        HandedOn(before, State.SessionStop, sid, req, env);
        current := State.SessionStop;
        out := ProcessSessionStop(sid, req, env);
        return;
      }
      MatchOffers(env.energyServices, env.vas);
      out := Reply(Stay, ServiceDiscoveryRes(env.renegotiation, env.energyServices, VasServices(env.vas)));
      current := State.ServiceDiscovery(false);
    }

    /** Every offered service becomes a matched service; only the value-added ones come with sets. */
    method MatchOffers(energy: seq<Service>, vas: seq<VasOffer>)
      modifies this`matched
      ensures matched == old(matched) + Offered(energy) + OfferedVas(vas)
    {
      MatchEnergy(energy);
      MatchVas(vas);
    }

    method MatchEnergy(energy: seq<Service>)
      modifies this`matched
      ensures matched == old(matched) + Offered(energy)
    {
      hide Offered;
      for i := 0 to |energy|
        invariant matched == old(matched) + Offered(energy)[..i]
      {
        matched := matched + [MatchedService(energy[i], true, [])];
      }
    }

    method MatchVas(vas: seq<VasOffer>)
      modifies this`matched
      ensures matched == old(matched) + OfferedVas(vas)
    {
      hide OfferedVas;
      for i := 0 to |vas|
        invariant matched == old(matched) + OfferedVas(vas)[..i]
      {
        matched := matched + [MatchedService(vas[i].service, false, vas[i].sets)];
      }
    }

    /** The first matched service with the id takes the parameter sets. */
    method StoreParameterSets(service: Service, sets: seq<ParameterSet>) returns (isFound: bool)
      modifies this`matched
      ensures isFound == Lists(old(matched), service)
      ensures matched == StoreFirst(old(matched), service, sets)
    {
      var i := 0;
      while i < |matched|
        invariant 0 <= i <= |matched| && matched == old(matched)
        invariant forall k :: 0 <= k < i ==> matched[k].service != service
      {
        if matched[i].service == service {
          StoreFirstAt(matched, i, service, sets);
          matched := matched[i := matched[i].(sets := sets)];
          return true;
        }
        i := i + 1;
      }
      StoreFirstMissing(matched, service, sets);
      return false;
    }

    method ProcessServiceDetail(sid: string, req: Request, env: Env) returns (out: Outcome)
      requires next == Stay && current.ServiceDetail?
      modifies this
      ensures (Settled(), out) == old(Step(Settled(), sid, req, env))
    {
      hide Step;
      hide AnswerServiceDetail;
      ghost var before := Settled();
      var ok;
      ok, out := CheckMessage(sid, req);
      if !ok {
        RefusedStep(before, sid, req, env);
        return;
      }
      if req.ServiceDetailReq? {
        ServiceDetailStep(before, sid, req, env);
      }
      if req.ServiceSelectionReq? {
        HandedOn(before, State.ServiceSelection, sid, req, env);
        current := State.ServiceSelection;
        out := ProcessServiceSelection(sid, req, env);
        return;
      }
      if req.SessionStopReq? {
        HandedOn(before, State.SessionStop, sid, req, env);
        current := State.SessionStop;
        out := ProcessSessionStop(sid, req, env);
        return;
      }
      out := ServeDetail(req.service, env);
    }

    /** ServiceDetail's own message. */
    method ServeDetail(service: Service, env: Env) returns (out: Outcome)
      requires next == Stay && current.ServiceDetail?
      modifies this
      ensures (Settled(), out) == AnswerServiceDetail(old(Settled()), service, env)
    {
      var isFound := StoreParameterSets(service, env.parameterSets);
      out := Replied(Response(sid, !isFound, ServiceDetailRes(service, env.parameterSets)));
      current := State.ServiceDetail(false);
    }

    method ProcessServiceSelection(sid: string, req: Request, env: Env) returns (out: Outcome)
      requires next == Stay && current.ServiceSelection?
      modifies this
      ensures (Settled(), out) == old(Step(Settled(), sid, req, env))
    {
      hide Step;
      hide PairOffered;
      hide AllOffered;
      hide Chosen;
      hide ChosenMode;
      ghost var before := Settled();
      var ok;
      ok, out := CheckMessage(sid, req);
      if !ok {
        RefusedStep(before, sid, req, env);
        return;
      }
      if req.ServiceSelectionReq? {
        ServiceSelectionStep(before, sid, req, env);
      }
      if req.SessionStopReq? {
        HandedOn(before, State.SessionStop, sid, req, env);
        current := State.SessionStop;
        out := ProcessSessionStop(sid, req, env);
        return;
      }
      var valid := CheckSelectedServices(req.energy, req.vas);
      if !valid {
        out := StopStateMachine(req);
        return;
      }
      if IsAc(req.energy.service) {
        out := Reply(To(State.AcParameters), ServiceSelectionRes);
      } else if IsDc(req.energy.service) {
        out := Reply(To(State.DcParameters), ServiceSelectionRes);
      } else {
        out := StopStateMachine(req);
      }
    }

    /**
     `check_selected_services`: both selections must be offered pairs; then the energy
     service, its parameter set and its control mode are recorded. The branch that should
     record the value-added services compares the energy service id where it has just been
     found different, so nothing is ever recorded there.
     */
    method CheckSelectedServices(energy: Pick, vas: seq<Pick>) returns (valid: bool)
      modifies this`selected, this`mode, this`selectedVas
      ensures valid == (PairOffered(matched, energy) && AllOffered(matched, vas))
      ensures !valid ==> selected == old(selected) && mode == old(mode)
      ensures valid ==> selected == Chosen(matched, energy) && mode == ChosenMode(matched, energy, old(mode))
      ensures selectedVas == old(selectedVas)
    {
      var pairs := OfferedPairs();
      if energy !in pairs {
        return false;
      }
      for k := 0 to |vas|
        invariant forall j :: 0 <= j < k ==> vas[j] in pairs
        invariant selected == old(selected) && mode == old(mode)
      {
        if vas[k] !in pairs {
          return false;
        }
      }
      assert PairOffered(matched, energy) && AllOffered(matched, vas);
      hide PairOffered;
      hide AllOffered;
      ChosenNowhere(energy, mode);
      hide Chosen;
      hide ChosenMode;
      var i := 0;
      while i < |matched|
        invariant 0 <= i <= |matched|
        invariant selectedVas == old(selectedVas)
        invariant mode == ChosenMode(matched[..i], energy, old(mode))
        invariant selected == if Chosen(matched[..i], energy).Some? then Chosen(matched[..i], energy) else old(selected)
      {
        assert matched[..i + 1] == matched[..i] + [matched[i]];
        ChosenSnoc(matched[..i], matched[i], energy, old(mode));
        if energy.service == matched[i].service {
          var set' := FirstWithId(matched[i].sets, energy.setId);
          if set'.Some? {
            selected := Some(SelectedService(energy.service, set'.value));
            TakeMode(set'.value.modes);
          }
        } else {
          ghost var selected', mode' := selected, mode;
          var v := 0;
          while v < |vas|
            invariant selectedVas == old(selectedVas) && selected == selected' && mode == mode'
          {
            if energy.service == matched[i].service {
              assert false;  // where the source would append to selectedVas
            }
            v := v + 1;
          }
        }
        i := i + 1;
      }
      assert matched[..i] == matched;
      return true;
    }

    /** The loop over the parameters of the recorded set: the last control mode wins. */
    method TakeMode(modes: seq<ControlMode>)
      modifies this`mode
      ensures mode == if modes == [] then old(mode) else Some(modes[|modes| - 1])
    {
      for m := 0 to |modes|
        invariant mode == if m == 0 then old(mode) else Some(modes[m - 1])
      {
        mode := Some(modes[m]);
      }
    }

    /** All (service id, parameter set id) pairs of the offered services. */
    method OfferedPairs() returns (pairs: seq<Pick>)
      ensures forall pick :: pick in pairs <==> PairOffered(matched, pick)
    {
      pairs := [];
      for i := 0 to |matched|
        invariant forall pick :: pick in pairs <==> PairOffered(matched[..i], pick)
      {
        ghost var before := pairs;
        var sets := matched[i].sets;
        for j := 0 to |sets|
          invariant forall pick :: pick in pairs <==>
            pick in before || exists k :: 0 <= k < j && pick == Pick(matched[i].service, sets[k].id)
        {
          pairs := pairs + [Pick(matched[i].service, sets[j].id)];
        }
        forall pick
          ensures pick in pairs <==> PairOffered(matched[..i + 1], pick)
        {
          PairOfferedSnoc(matched[..i], matched[i], pick);
          assert matched[..i + 1] == matched[..i] + [matched[i]];
        }
      }
      assert matched[..|matched|] == matched;
    }

    method FirstWithId(sets: seq<ParameterSet>, setId: int) returns (found: Option<ParameterSet>)
      ensures found == FirstSet(sets, setId)
    {
      var j := 0;
      while j < |sets|
        invariant 0 <= j <= |sets|
        invariant FirstSet(sets, setId) == FirstSet(sets[j..], setId)
      {
        if sets[j].id == setId {
          return Some(sets[j]);
        }
        assert sets[j..][1..] == sets[j + 1..];
        j := j + 1;
      }
      return None;
    }

    method ProcessScheduleExchange(sid: string, req: Request, env: Env) returns (out: Outcome)
      requires next == Stay && current.ScheduleExchange?
      modifies this
      ensures (Settled(), out) == old(Step(Settled(), sid, req, env))
    {
      hide Step;
      hide AnswerScheduleExchange;
      ghost var before := Settled();
      var ok;
      ok, out := CheckMessage(sid, req);
      if !ok {
        RefusedStep(before, sid, req, env);
        return;
      }
      if req.ScheduleExchangeReq? {
        ScheduleExchangeStep(before, sid, req, env);
      }
      if req.CableCheckReq? {
        HandedOn(before, State.CableCheck(false, false), sid, req, env);
        current := State.CableCheck(false, false);
        out := ProcessCableCheck(sid, req, env);
        return;
      }
      if req.PowerDeliveryReq? {
        HandedOn(before, State.PowerDelivery, sid, req, env);
        current := State.PowerDelivery;
        out := ProcessPowerDelivery(sid, req, env);
        return;
      }
      if req.SessionStopReq? {
        HandedOn(before, State.SessionStop, sid, req, env);
        current := State.SessionStop;
        out := ProcessSessionStop(sid, req, env);
        return;
      }
      out := OfferSchedule(req, env);
    }

    /** ScheduleExchange's own message. */
    method OfferSchedule(req: Request, env: Env) returns (out: Outcome)
      requires next == Stay && current.ScheduleExchange? && req.ScheduleExchangeReq?
      modifies this
      ensures (Settled(), out) == AnswerScheduleExchange(old(Settled()), env)
    {
      if mode.Some? && !env.scheduleParamsFit {
        out := StopStateMachine(req);
        return;
      }
      var processing := Ongoing;
      if env.readyToCharge {
        processing := Finished;
        if mode == Some(Scheduled) {
          offeredTuples := env.scheduleTuples;
        }
      }
      var to := Stay;
      if processing == Finished {
        if selected.None? {
          next, out := End, Raised;
          return;
        }
        if IsAc(selected.value.service) {
          to := To(State.PowerDelivery);
        }
      }
      out := Reply(to, ScheduleExchangeRes(processing, if mode == Some(Scheduled) then Some(env.scheduleTuples) else None, false));
    }

    method ProcessPowerDelivery(sid: string, req: Request, env: Env) returns (out: Outcome)
      requires next == Stay && current.PowerDelivery?
      modifies this
      ensures (Settled(), out) == old(Step(Settled(), sid, req, env))
    {
      hide Step;
      hide AnswerPowerDelivery;
      ghost var before := Settled();
      var ok;
      ok, out := CheckMessage(sid, req);
      if !ok {
        RefusedStep(before, sid, req, env);
        return;
      }
      if req.PowerDeliveryReq? {
        PowerDeliveryStep(before, sid, req, env);
      }
      if req.SessionStopReq? {
        HandedOn(before, State.SessionStop, sid, req, env);
        current := State.SessionStop;
        out := ProcessSessionStop(sid, req, env);
        return;
      }
      if req.WeldingReq? {
        HandedOn(before, State.Welding(true), sid, req, env);
        current := State.Welding(true);
        out := ProcessWelding(sid, req, env);
        return;
      }
      out := DeliverPower(req, env);
    }

    /** PowerDelivery's own message. */
    method DeliverPower(req: Request, env: Env) returns (out: Outcome)
      requires next == Stay && current.PowerDelivery? && req.PowerDeliveryReq?
      modifies this
      ensures (Settled(), out) == AnswerPowerDelivery(old(Settled()), req.evProcessing, req.progress, req.tupleId, env)
    {
      var to := Stay;
      if req.evProcessing.Ongoing? {
      } else if req.progress.Standby? && !env.standbyAllowed {
        out := StopStateMachine(req);
        out := Replied(Response(sid, false, FailedBody(req)));
        return;
      } else if req.progress.Stop? {
        hlc := false;
        if !env.contactorOpened {
          out := StopStateMachine(req);
          return;
        }
      } else {
        if mode == Some(Scheduled) {
          if req.tupleId.None? {
            next, out := End, Raised;
            return;
          }
          if req.tupleId.value !in offeredTuples {
            out := StopStateMachine(req);
            return;
          }
        }
        hlc := true;
        if env.contactorClosed != Some(true) {
          hlc := false;
          out := StopStateMachine(req);
          return;
        }
        if selected.None? {
          next, out := End, Raised;
          return;
        }
        if IsAc(selected.value.service) {
          to := To(State.AcLoop);
        } else if IsDc(selected.value.service) {
          to := To(State.DcLoop(true));
        }
      }
      out := Reply(to, PowerDeliveryRes);
    }

    method ProcessSessionStop(sid: string, req: Request, env: Env) returns (out: Outcome)
      requires next == Stay && current.SessionStop?
      modifies this
      ensures (Settled(), out) == old(Step(Settled(), sid, req, env))
    {
      hide Step;
      ghost var before := Settled();
      var ok;
      ok, out := CheckMessage(sid, req);
      if !ok {
        RefusedStep(before, sid, req, env);
        return;
      }
      SessionStopStep(before, sid, req, env);
      var to := End;
      if req.session.ServiceRenegotiation? && env.renegotiation {
        to := To(State.ServiceDiscovery(true));
      }
      out := Reply(to, SessionStopRes);
    }

    /** ACChargeParameterDiscovery and DCChargeParameterDiscovery. */
    method ProcessChargeParameters(sid: string, req: Request, env: Env) returns (out: Outcome)
      requires next == Stay && (current.AcParameters? || current.DcParameters?)
      modifies this
      ensures (Settled(), out) == old(Step(Settled(), sid, req, env))
    {
      hide Step;
      ghost var before := Settled();
      var ok;
      ok, out := CheckMessage(sid, req);
      if !ok {
        RefusedStep(before, sid, req, env);
        return;
      }
      if req.AcParametersReq? {
        AcParametersStep(before, sid, req, env);
      } else if req.DcParametersReq? {
        DcParametersStep(before, sid, req, env);
      }
      if req.SessionStopReq? {
        HandedOn(before, State.SessionStop, sid, req, env);
        current := State.SessionStop;
        out := ProcessSessionStop(sid, req, env);
      } else if selected.None? {
        next, out := End, Raised;
      } else if !env.parametersKnown {
        out := StopStateMachine(req);
      } else {
        out := Reply(To(State.ScheduleExchange), if current.AcParameters? then AcParametersRes else DcParametersRes(env.maxPower));
      }
    }

    method ProcessAcLoop(sid: string, req: Request, env: Env) returns (out: Outcome)
      requires next == Stay && current.AcLoop?
      modifies this
      ensures (Settled(), out) == old(Step(Settled(), sid, req, env))
    {
      hide Step;
      ghost var before := Settled();
      var ok;
      ok, out := CheckMessage(sid, req);
      if !ok {
        RefusedStep(before, sid, req, env);
        return;
      }
      if req.AcLoopReq? {
        AcLoopStep(before, sid, req, env);
      }
      if req.PowerDeliveryReq? {
        HandedOn(before, State.PowerDelivery, sid, req, env);
        current := State.PowerDelivery;
        out := ProcessPowerDelivery(sid, req, env);
      } else if req.SessionStopReq? {
        HandedOn(before, State.SessionStop, sid, req, env);
        current := State.SessionStop;
        out := ProcessSessionStop(sid, req, env);
      } else if selected.None? {
        next, out := End, Raised;
      } else {
        out := Replied(Response(this.sid, !IsAc(selected.value.service), AcLoopRes(env.status)));
      }
    }

    method ProcessCableCheck(sid: string, req: Request, env: Env) returns (out: Outcome)
      requires next == Stay && current.CableCheck?
      modifies this
      ensures (Settled(), out) == old(Step(Settled(), sid, req, env))
    {
      hide Step;
      hide AnswerCableCheck;
      ghost var before := Settled();
      var ok;
      ok, out := CheckMessage(sid, req);
      if !ok {
        RefusedStep(before, sid, req, env);
        return;
      }
      if req.CableCheckReq? {
        OwnCableCheckStep(before, sid, env);
      }
      if req.SessionStopReq? {
        HandedOn(before, State.SessionStop, sid, req, env);
        current := State.SessionStop;
        out := ProcessSessionStop(sid, req, env);
        return;
      }
      out := CheckCable(env);
    }

    /** CableCheck's own message. */
    method CheckCable(env: Env) returns (out: Outcome)
      requires next == Stay && current.CableCheck?
      modifies this
      ensures (Settled(), out) == AnswerCableCheck(old(Settled()), env)
    {
      var to, processing := Stay, Ongoing;
      if current.contactorsClosed {
        if env.isolation.Valid? || env.isolation.Warning? {
          to, processing := To(State.PreCharge(true)), Finished;
        } else if env.isolation.Invalid? || env.isolation.Fault? {
          out := StopStateMachine(CableCheckReq);
          return;
        }
        current := State.CableCheck(true, true);
      } else if env.contactorClosed.Some? {
        if env.contactorClosed.value {
          current := State.CableCheck(true, true);
        } else {
          out := StopStateMachine(CableCheckReq);
          return;
        }
      } else {
        current := State.CableCheck(true, false);
      }
      out := Reply(to, CableCheckRes(processing));
    }

    method ProcessPreCharge(sid: string, req: Request, env: Env) returns (out: Outcome)
      requires next == Stay && current.PreCharge?
      modifies this
      ensures (Settled(), out) == old(Step(Settled(), sid, req, env))
    {
      hide Step;
      ghost var before := Settled();
      var ok;
      ok, out := CheckMessage(sid, req);
      if !ok {
        RefusedStep(before, sid, req, env);
        return;
      }
      if req.PreChargeReq? {
        PreChargeStep(before, sid, req, env);
      }
      if req.PowerDeliveryReq? {
        HandedOn(before, State.PowerDelivery, sid, req, env);
        current := State.PowerDelivery;
        out := ProcessPowerDelivery(sid, req, env);
        return;
      }
      current := State.PreCharge(false);
      var to := Stay;
      if req.evProcessing == Finished {
        to := To(State.PowerDelivery);
      } else if !env.commandAccepted {
        out := StopStateMachine(req);
        return;
      }
      out := Reply(to, PreChargeRes(env.evseVoltage));
    }

    method ProcessDcLoop(sid: string, req: Request, env: Env) returns (out: Outcome)
      requires next == Stay && current.DcLoop?
      modifies this
      ensures (Settled(), out) == old(Step(Settled(), sid, req, env))
    {
      hide Step;
      ghost var before := Settled();
      var ok;
      ok, out := CheckMessage(sid, req);
      if !ok {
        RefusedStep(before, sid, req, env);
        return;
      }
      if req.DcLoopReq? {
        DcLoopStep(before, sid, req, env);
      }
      if req.PowerDeliveryReq? {
        HandedOn(before, State.PowerDelivery, sid, req, env);
        current := State.PowerDelivery;
        out := ProcessPowerDelivery(sid, req, env);
      } else if selected.None? {
        next, out := End, Raised;
      } else if !env.commandAccepted {
        out := StopStateMachine(req);
      } else {
        current := State.DcLoop(false);
        out := Replied(Response(this.sid, !IsDc(selected.value.service), DcLoopRes(env.status)));
      }
    }

    method ProcessWelding(sid: string, req: Request, env: Env) returns (out: Outcome)
      requires next == Stay && current.Welding?
      modifies this
      ensures (Settled(), out) == old(Step(Settled(), sid, req, env))
    {
      hide Step;
      ghost var before := Settled();
      var ok;
      ok, out := CheckMessage(sid, req);
      if !ok {
        RefusedStep(before, sid, req, env);
        return;
      }
      if req.WeldingReq? {
        WeldingStep(before, sid, req, env);
      }
      if req.SessionStopReq? {
        HandedOn(before, State.SessionStop, sid, req, env);
        current := State.SessionStop;
        out := ProcessSessionStop(sid, req, env);
      } else {
        current := State.Welding(false);
        out := Reply(Stay, WeldingRes);
      }
    }
  }

  lemma ChosenNowhere(pick: Pick, mode: Option<ControlMode>)
    ensures Chosen([], pick) == None && ChosenMode([], pick, mode) == mode
  {
  }

  lemma {:induction false} StoreFirstAt(matched: seq<MatchedService>, i: nat, service: Service, sets: seq<ParameterSet>)
    requires i < |matched| && matched[i].service == service
    requires forall k :: 0 <= k < i ==> matched[k].service != service
    ensures StoreFirst(matched, service, sets) == matched[i := matched[i].(sets := sets)]
  {
    var filled := matched[i].(sets := sets);
    if i == 0 {
      assert [filled] + matched[1..] == matched[0 := filled];
    } else {
      StoreFirstAt(matched[1..], i - 1, service, sets);
      assert [matched[0]] + matched[1..][i - 1 := filled] == matched[i := filled];
    }
  }

  lemma {:induction false} StoreFirstMissing(matched: seq<MatchedService>, service: Service, sets: seq<ParameterSet>)
    requires forall k :: 0 <= k < |matched| ==> matched[k].service != service
    ensures StoreFirst(matched, service, sets) == matched
  {
    if matched != [] {
      StoreFirstMissing(matched[1..], service, sets);
    }
  }

  /** The list `check_msg` is given in each state; the state's own kind comes first. */
  function ExpectedKinds(state: State): seq<Kind> {
    match state
    case SessionSetup => [KSessionSetup]
    case AuthorizationSetup(_) => [KAuthorizationSetup, KAuthorization, KCertificateInstallation, KSessionStop]
    case CertificateInstallation => [KCertificateInstallation]
    case Authorization(_) => [KAuthorization, KCertificateInstallation, KServiceDiscovery, KSessionStop]
    case ServiceDiscovery(_) => [KServiceDiscovery, KServiceDetail, KSessionStop]
    case ServiceDetail(_) => [KServiceDetail, KServiceSelection, KSessionStop]
    case ServiceSelection => [KServiceSelection, KSessionStop]
    case ScheduleExchange => [KScheduleExchange, KCableCheck, KPowerDelivery, KSessionStop]
    case PowerDelivery => [KPowerDelivery, KWelding, KSessionStop]
    case SessionStop => [KSessionStop]
    case AcParameters => [KAcParameters, KSessionStop]
    case AcLoop => [KAcLoop, KPowerDelivery, KSessionStop]
    case DcParameters => [KDcParameters, KSessionStop]
    case CableCheck(_, _) => [KCableCheck, KSessionStop]
    case PreCharge(_) => [KPreCharge, KPowerDelivery]
    case DcLoop(_) => [KDcLoop, KPowerDelivery]
    case Welding(_) => [KWelding, KSessionStop]
    case Terminated => []
  }

  predicate InSetup(state: State) {
    state.SessionSetup? || state.AuthorizationSetup? || state.CertificateInstallation? || state.Authorization?
    || state.ServiceDiscovery? || state.ServiceDetail? || state.ServiceSelection?
  }

  lemma ExpectedInSetup(state: State, kind: Kind)
    requires InSetup(state)
    ensures Accepts(state, kind) <==>
      (kind in ExpectedKinds(state) && (FirstOnly(state) ==> kind == ExpectedKinds(state)[0]))
  {
  }

  lemma ExpectedInPreparation(state: State, kind: Kind)
    requires state.AcParameters? || state.DcParameters? || state.ScheduleExchange? || state.CableCheck? || state.PreCharge?
    ensures Accepts(state, kind) <==>
      (kind in ExpectedKinds(state) && (FirstOnly(state) ==> kind == ExpectedKinds(state)[0]))
  {
  }

  lemma ExpectedInCharging(state: State, kind: Kind)
    requires state.PowerDelivery? || state.AcLoop? || state.DcLoop? || state.Welding? || state.SessionStop? || state.Terminated?
    ensures Accepts(state, kind) <==>
      (kind in ExpectedKinds(state) && (FirstOnly(state) ==> kind == ExpectedKinds(state)[0]))
  {
  }

  lemma ExpectedKindsAreAccepted(state: State, kind: Kind)
    ensures Accepts(state, kind) <==>
      (kind in ExpectedKinds(state) && (FirstOnly(state) ==> kind == ExpectedKinds(state)[0]))
  {
    hide Accepts;
    hide ExpectedKinds;
    hide FirstOnly;
    if InSetup(state) {
      ExpectedInSetup(state, kind);
    } else if state.AcParameters? || state.DcParameters? || state.ScheduleExchange? || state.CableCheck? || state.PreCharge? {
      ExpectedInPreparation(state, kind);
    } else {
      ExpectedInCharging(state, kind);
    }
  }

  lemma PairOfferedSnoc(matched: seq<MatchedService>, m: MatchedService, pick: Pick)
    ensures PairOffered(matched + [m], pick) <==>
      PairOffered(matched, pick) || exists k :: 0 <= k < |m.sets| && pick == Pick(m.service, m.sets[k].id)
  {
    var all := matched + [m];
    assert all[|matched|] == m;
    if PairOffered(matched, pick) {
      var i, j :| 0 <= i < |matched| && 0 <= j < |matched[i].sets|
        && matched[i].service == pick.service && matched[i].sets[j].id == pick.setId;
      assert all[i] == matched[i];
    }
    if k :| 0 <= k < |m.sets| && pick == Pick(m.service, m.sets[k].id) {
      assert all[|matched|].sets[k].id == pick.setId;
    }
  }
}
