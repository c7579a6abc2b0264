/**
 The EVCC session object of ISO 15118-20 and its state handlers, field by field. A handler
 that creates its next message without a next state stays put and keeps that message.
 */
module EvccSessions {
  import opened Options
  import opened Messages
  import opened EvccProtocol
  import Conduct = EvccConduct
  import Safety = EvccSafety

  /** `next_state`: stay, go to a fresh state, or Terminate. */
  datatype Next = Stay | To(state: State) | End

  class EvccSession {
    var current: State
    var next: Next
    var sid: string
    var renegotiationSupported: bool
    var matched: seq<MatchedService>
    var toRequest: seq<Service>
    var selected: Option<SelectedService>
    var selectedVas: seq<Pick>
    var mode: Option<ControlMode>
    var isAc: bool
    var evProcessing: Processing
    var offer: Offer
    var stop: Option<ChargingSession>
    var renegotiationRequested: bool
    var pnc: bool
    var timer: real
    var wait: real

    constructor ()
      ensures Settled() == Initial
      ensures next == Stay
    {
      current, next, sid := State.SessionSetup, Stay, ZeroSid;
      renegotiationSupported, matched, toRequest := false, [], [];
      selected, selectedVas, mode, isAc := None, [], None, true;
      evProcessing, offer, stop := Finished, Offer(None, false), None;
      renegotiationRequested, pnc, timer, wait := false, false, -1.0, 2.0;
    }

    /** The session as it stands once `go_to_next_state` has run. */
    function Settled(): Session
      reads this
    {
      var state := match next case Stay => current case To(state) => state case End => State.Terminated;
      Session(state, sid, renegotiationSupported, matched, toRequest, selected, mode, isAc, evProcessing, offer,
              stop, renegotiationRequested, pnc, timer, wait)
    }

    /** One turn of the receive loop: process the response, then move to the next state. */
    method ProcessMessage(res: Response, env: Env) returns (out: Outcome)
      requires next == Stay
      modifies this
      ensures next == Stay
      ensures (Settled(), out) == old(Step(Settled(), res, env))
    {
      if current.Terminated? {
        out := Raised;
      } else if current.SessionSetup? || current.AuthorizationSetup? || current.CertificateInstallation?
          || current.Authorization? || current.ServiceDiscovery? || current.ServiceDetail? || current.ServiceSelection? {
        out := ProcessInSetup(res, env);
      } else if current.AcParameters? || current.DcParameters? || current.ScheduleExchange? || current.CableCheck?
          || current.PreCharge? {
        out := ProcessInPreparation(res, env);
      } else {
        out := ProcessInCharging(res, env);
      }
      GoToNextState();
    }

    /** A whole session: every message is processed in turn. */
    method ReceiveAll(inputs: seq<Safety.Input>) returns (outs: seq<Outcome>)
      requires next == Stay && Settled() == Initial
      modifies this
      ensures next == Stay && Settled() == Safety.Run(inputs).session && outs == Safety.Outcomes(inputs)
      ensures Safety.PreparedThroughout(inputs, outs)
      ensures Conduct.ProperThroughout(inputs, outs)
    {
      outs := [];
      for i := 0 to |inputs|
        invariant next == Stay && Settled() == Safety.Run(inputs[..i]).session
        invariant outs == Safety.Outcomes(inputs[..i])
      {
        assert inputs[..i + 1][..i] == inputs[..i];
        var out := ProcessMessage(inputs[i].res, inputs[i].env);
        outs := outs + [out];
      }
      assert inputs[..|inputs|] == inputs;
      Safety.AllPrepared(inputs);
      Conduct.AllProper(inputs);
    }

    method ProcessInSetup(res: Response, env: Env) returns (out: Outcome)
      requires next == Stay
      requires current.SessionSetup? || current.AuthorizationSetup? || current.CertificateInstallation?
        || current.Authorization? || current.ServiceDiscovery? || current.ServiceDetail? || current.ServiceSelection?
      modifies this
      ensures (Settled(), out) == old(Step(Settled(), res, env))
    {
      match current
      case SessionSetup => out := ProcessSessionSetup(res, env);
      case AuthorizationSetup => out := ProcessAuthorizationSetup(res, env);
      case CertificateInstallation => next, out := End, Raised;
      case Authorization => out := ProcessAuthorization(res, env);
      case ServiceDiscovery => out := ProcessServiceDiscovery(res, env);
      case ServiceDetail => out := ProcessServiceDetail(res, env);
      case ServiceSelection => out := ProcessServiceSelection(res, env);
    }

    method ProcessInPreparation(res: Response, env: Env) returns (out: Outcome)
      requires next == Stay
      requires current.AcParameters? || current.DcParameters? || current.ScheduleExchange? || current.CableCheck?
        || current.PreCharge?
      modifies this
      ensures (Settled(), out) == old(Step(Settled(), res, env))
    {
      match current
      case AcParameters => out := ProcessChargeParameters(res, env);
      case DcParameters => out := ProcessChargeParameters(res, env);
      case ScheduleExchange => out := ProcessScheduleExchange(res, env);
      case CableCheck(_) => out := ProcessCableCheck(res, env);
      case PreCharge(_, _) => out := ProcessPreCharge(res, env);
    }

    method ProcessInCharging(res: Response, env: Env) returns (out: Outcome)
      requires next == Stay
      requires current.PowerDelivery? || current.SessionStop? || current.AcLoop? || current.DcLoop? || current.Welding?
      modifies this
      ensures (Settled(), out) == old(Step(Settled(), res, env))
    {
      match current
      case PowerDelivery => out := ProcessPowerDelivery(res, env);
      case SessionStop => out := ProcessSessionStop(res, env);
      case AcLoop => out := ProcessChargeLoop(res, env);
      case DcLoop(_) => out := ProcessChargeLoop(res, env);
      case Welding(_, _) => out := ProcessWelding(env);
    }

    method GoToNextState()
      modifies this`current, this`next
      ensures next == Stay && Settled() == old(Settled())
    {
      match next {
        case Stay =>
        case To(state) => current := state;
        case End => current := State.Terminated;
      }
      next := Stay;
    }

    /** `check_msg`: stops the session, or leaves it untouched and returns true. */
    method CheckMessage(res: Response) returns (ok: bool, out: Outcome)
      requires next == Stay && !current.Terminated?
      modifies this`next
      ensures ok == Passes(old(Settled()), res)
      ensures ok ==> next == Stay
      ensures !ok ==> (Settled(), out) == StopNow(old(Settled()))
    {
      ok, out := false, Raised;
      if ResponseKind(res.body) != Awaited(current) {
        out := StopStateMachine();
        return;
      }
      if res.failed {
        out := StopStateMachine();
        return;
      }
      if !res.body.SessionSetupRes? && res.sid != sid {
        out := StopStateMachine();
        return;
      }
      ok := true;
    }

    /** Whatever message the state object already holds is sent once more on the way out. */
    method StopStateMachine() returns (out: Outcome)
      requires next == Stay
      modifies this`next
      ensures (Settled(), out) == StopNow(old(Settled()))
    {
      next := End;
      out := Quit(Held(current), false);
    }

    method CreateNextMessage(state: State, req: Request, timeout: real) returns (out: Outcome)
      modifies this`next, this`wait
      ensures (Settled(), out) == Go(old(Settled()), state, req, timeout)
    {
      next, wait, out := To(state), timeout, Sent(req);
    }

    method ProcessSessionSetup(res: Response, env: Env) returns (out: Outcome)
      requires next == Stay && current.SessionSetup?
      modifies this
      ensures (Settled(), out) == old(Step(Settled(), res, env))
    {
      hide Agrees;
      hide LeavesServices;
      var ok;
      ok, out := CheckMessage(res);
      if !ok { return; }
      sid := res.sid;
      out := CreateNextMessage(State.AuthorizationSetup, AuthorizationSetupReq, 2.0);
    }

    /**
     A provisioning key that cannot be read makes the car fall back to an authorization request, a
     contract key that cannot be read to external identification.
     */
    method ProcessAuthorizationSetup(res: Response, env: Env) returns (out: Outcome)
      requires next == Stay && current.AuthorizationSetup?
      modifies this
      ensures (Settled(), out) == old(Step(Settled(), res, env))
    {
      hide Agrees;
      hide LeavesServices;
      var ok;
      ok, out := CheckMessage(res);
      if !ok { return; }
      if res.body.certInstallService && env.certInstallNeeded {
        if env.oemKeyReadable {
          out := CreateNextMessage(State.CertificateInstallation, CertificateInstallationReq, 5.0);
          return;
        }
      }
      var pncParams := false;
      if res.body.pncOffered {
        pncParams := true;
        if !env.contractKeyReadable {
          pncParams := false;
        }
      }
      pnc := pncParams;
      out := CreateNextMessage(State.Authorization, AuthorizationReq(pncParams, pncParams), 2.0);
    }

    method ProcessAuthorization(res: Response, env: Env) returns (out: Outcome)
      requires next == Stay && current.Authorization?
      modifies this
      ensures (Settled(), out) == old(Step(Settled(), res, env))
    {
      hide Agrees;
      hide LeavesServices;
      var ok;
      ok, out := CheckMessage(res);
      if !ok { return; }
      if res.body.processing == Finished {
        timer := -1.0;
        out := CreateNextMessage(State.ServiceDiscovery, ServiceDiscoveryReq, 2.0);
      } else {
        var elapsed := 0.0;
        if timer >= 0.0 {
          elapsed := env.now - timer;
          if elapsed > OngoingTimeout {
            out := StopStateMachine();
            return;
          }
        } else {
          timer := env.now;
        }
        out := CreateNextMessage(State.Authorization, AuthorizationReq(pnc, pnc), Min(2.0, OngoingTimeout - elapsed));
      }
    }

    method ProcessServiceDiscovery(res: Response, env: Env) returns (out: Outcome)
      requires next == Stay && current.ServiceDiscovery?
      modifies this
      ensures (Settled(), out) == old(Step(Settled(), res, env))
    {
      var ok;
      ok, out := CheckMessage(res);
      if !ok { return; }
      out := DiscoverServices(res.body.renegotiation, res.body.energy, res.body.vas, env);
    }

    method DiscoverServices(renegotiation: bool, energy: seq<Service>, vas: seq<Service>, env: Env) returns (out: Outcome)
      requires next == Stay
      modifies this
      ensures (Settled(), out) == OnServiceDiscovery(old(Settled()), renegotiation, energy, vas, env)
    {
      hide Matching;
      hide Entries;
      hide RequestDetail;
      renegotiationSupported := renegotiation;
      MatchOffers(energy, env.supported);
      if matched == [] {
        stop := Some(ChargingSession.Terminate);
        out := CreateNextMessage(State.SessionStop, SessionStopReq(ChargingSession.Terminate), 2.0);
        return;
      }
      out := ListVas(vas);
    }

    /** Every offered service is compared with every service the car supports. */
    method MatchOffers(energy: seq<Service>, supported: seq<Service>)
      modifies this`matched, this`toRequest
      ensures matched == old(matched) + Entries(Matching(energy, supported), true)
      ensures toRequest == old(toRequest) + Matching(energy, supported)
    {
      hide Entries;
      hide Repeated;
      ghost var found: seq<Service> := [];
      for i := 0 to |energy|
        invariant found == Matching(energy[..i], supported)
        invariant matched == old(matched) + Entries(found, true)
        invariant toRequest == old(toRequest) + found
      {
        ghost var here := Repeated(energy[i], supported);
        MatchOffer(energy[i], supported);
        AppendEntries(old(matched), found, here);
        found := found + here;
        assert energy[..i + 1][..i] == energy[..i];
      }
      assert energy[..|energy|] == energy;
    }

    method MatchOffer(service: Service, supported: seq<Service>)
      modifies this`matched, this`toRequest
      ensures matched == old(matched) + Entries(Repeated(service, supported), true)
      ensures toRequest == old(toRequest) + Repeated(service, supported)
    {
      hide Entries;
      for j := 0 to |supported|
        invariant matched == old(matched) + Entries(Repeated(service, supported[..j]), true)
        invariant toRequest == old(toRequest) + Repeated(service, supported[..j])
      {
        assert supported[..j + 1][..j] == supported[..j];
        if supported[j] == service {
          AppendEntries(old(matched), Repeated(service, supported[..j]), [service]);
          assert Entries([service], true) == [MatchedService(service, true, [])];
          matched := matched + [MatchedService(service, true, [])];
          toRequest := toRequest + [service];
        }
      }
      assert supported[..|supported|] == supported;
    }

    /** The value-added services are listed but their details are not requested. */
    method ListVas(vas: seq<Service>) returns (out: Outcome)
      requires next == Stay
      modifies this
      ensures (Settled(), out) == RequestDetail(old(Settled()).(matched := old(matched) + Entries(vas, false)))
    {
      AppendVas(vas);
      out := PopDetail();
    }

    method AppendVas(vas: seq<Service>)
      modifies this`matched
      ensures matched == old(matched) + Entries(vas, false)
    {
      for i := 0 to |vas|
        invariant matched == old(matched) + Entries(vas, false)[..i]
      {
        matched := matched + [MatchedService(vas[i], false, [])];
      }
    }

    /** `service_details_to_request.pop()`; popping from an empty list raises. */
    method PopDetail() returns (out: Outcome)
      requires next == Stay
      modifies this
      ensures (Settled(), out) == RequestDetail(old(Settled()))
    {
      if toRequest == [] {
        next, out := End, Raised;
        return;
      }
      var service := toRequest[|toRequest| - 1];
      toRequest := toRequest[..|toRequest| - 1];
      out := CreateNextMessage(State.ServiceDetail, ServiceDetailReq(service), 5.0);
    }

    method ProcessServiceDetail(res: Response, env: Env) returns (out: Outcome)
      requires next == Stay && current.ServiceDetail?
      modifies this
      ensures (Settled(), out) == old(Step(Settled(), res, env))
    {
      hide Step;
      hide AfterDetail;
      ServiceDetailStep(Settled(), res, env);
      var ok;
      ok, out := CheckMessage(res);
      if !ok { return; }
      StoreParameterSets(res.body.service, res.body.sets);
      out := NextDetail(env);
    }

    /** Asks for the next service detail, or selects a service once the list is drained. */
    method NextDetail(env: Env) returns (out: Outcome)
      requires next == Stay
      modifies this
      ensures (Settled(), out) == AfterDetail(old(Settled()), env)
    {
      hide RequestDetail;
      if toRequest != [] {
        out := PopDetail();
        return;
      }
      if matched == [] || matched[0].sets == [] {
        next, out := End, Raised;
        return;
      }
      out := SelectServices(env);
    }

    /** All details are known: the first matched service is selected with its first parameter set. */
    method SelectServices(env: Env) returns (out: Outcome)
      requires next == Stay && toRequest == [] && matched != [] && matched[0].sets != []
      modifies this
      ensures (Settled(), out) == AfterDetail(old(Settled()), env)
    {
      hide SelectVas;
      hide AfterDetail;
      hide AmongServices;
      hide Agrees;
      ghost var before := Settled();
      SelectionEffect(before, env);
      selected := Some(SelectedService(matched[0].service, matched[0].sets[0]));
      ghost var chosen := Settled();
      var isSet := IsControlModeSet(matched[0].sets[0].modes);
      if !isSet {
        assert Settled() == chosen;
        out := CreateNextMessage(State.SessionStop, SessionStopReq(ChargingSession.Terminate), 2.0);
        return;
      }
      ghost var controlled := chosen.(mode := mode);
      SelectVasServices(env.diagnostic);
      assert Settled() == controlled;
      var energy := Pick(selected.value.service, selected.value.parameterSet.id);
      out := CreateNextMessage(State.ServiceSelection, ServiceSelectionReq(energy, selectedVas), 2.0);
    }

    /** Every matched service with the id takes the parameter sets. */
    method StoreParameterSets(service: Service, sets: seq<ParameterSet>)
      modifies this`matched
      ensures matched == StoreAll(old(matched), service, sets)
    {
      var i := 0;
      while i < |matched|
        invariant 0 <= i <= |matched| == |old(matched)|
        invariant forall k :: i <= k < |matched| ==> matched[k] == old(matched)[k]
        invariant forall k :: 0 <= k < i ==> matched[k] == Stored(old(matched)[k], service, sets)
      {
        if matched[i].service == service {
          matched := matched[i := matched[i].(sets := sets)];
        }
        i := i + 1;
      }
    }

    method IsControlModeSet(modes: seq<ControlMode>) returns (isSet: bool)
      modifies this`mode
      ensures isSet == (modes != [])
      ensures mode == if modes == [] then old(mode) else Some(modes[|modes| - 1])
    {
      isSet := false;
      for i := 0 to |modes|
        invariant isSet == (i > 0)
        invariant mode == if i == 0 then old(mode) else Some(modes[i - 1])
      {
        mode := Some(modes[i]);
        isSet := true;
      }
    }

    /** All value-added services, or only the first one with the configured diagnostic id. */
    method SelectVasServices(diagnostic: Option<Service>)
      modifies this`selectedVas
      ensures selectedVas == SelectVas(matched, diagnostic)
    {
      selectedVas := [];
      var i := 0;
      while i < |matched|
        invariant 0 <= i <= |matched|
        invariant selectedVas + SelectVas(matched[i..], diagnostic) == SelectVas(matched, diagnostic)
        invariant diagnostic.Some? ==> selectedVas == []
      {
        assert matched[i..][1..] == matched[i + 1..];
        if !matched[i].isEnergy {
          if diagnostic.None? {
            selectedVas := selectedVas + [VasPick(matched[i])];
          } else if matched[i].service == diagnostic.value {
            selectedVas := selectedVas + [VasPick(matched[i])];
            return;
          }
        }
        i := i + 1;
      }
    }

    method ProcessServiceSelection(res: Response, env: Env) returns (out: Outcome)
      requires next == Stay && current.ServiceSelection?
      modifies this
      ensures (Settled(), out) == old(Step(Settled(), res, env))
    {
      hide Agrees;
      hide LeavesServices;
      var ok;
      ok, out := CheckMessage(res);
      if !ok { return; }
      if selected.None? {
        next, out := End, Raised;
      } else if IsAc(selected.value.service) {
        isAc := true;
        out := CreateNextMessage(State.AcParameters, AcParametersReq, 2.0);
      } else if IsDc(selected.value.service) {
        isAc := false;
        out := CreateNextMessage(State.DcParameters, DcParametersReq, 2.0);
      } else {
        next, out := End, Raised;
      }
    }

    /** ACChargeParameterDiscovery and DCChargeParameterDiscovery. */
    method ProcessChargeParameters(res: Response, env: Env) returns (out: Outcome)
      requires next == Stay && (current.AcParameters? || current.DcParameters?)
      modifies this
      ensures (Settled(), out) == old(Step(Settled(), res, env))
    {
      hide Agrees;
      hide LeavesServices;
      var ok;
      ok, out := CheckMessage(res);
      if !ok { return; }
      out := CreateNextMessage(State.ScheduleExchange, ScheduleExchangeReq, 2.0);
    }

    method ProcessScheduleExchange(res: Response, env: Env) returns (out: Outcome)
      requires next == Stay && current.ScheduleExchange?
      modifies this
      ensures (Settled(), out) == old(Step(Settled(), res, env))
    {
      hide Agrees;
      hide LeavesServices;
      var ok;
      ok, out := CheckMessage(res);
      if !ok { return; }
      if res.body.processing == Ongoing {
        out := CreateNextMessage(State.ScheduleExchange, ScheduleExchangeReq, 2.0);
        return;
      }
      var stored := Offer(res.body.tuples, res.body.goToPause);
      var profile := BuildProfile(Settled(), stored, env);
      if profile.NoSchedule? {
        next, out := End, Raised;
        return;
      }
      offer := stored;
      if profile.NotReady? {
        evProcessing := Ongoing;
      }
      if isAc {
        out := CreateNextMessage(State.PowerDelivery, DeliveryRequest(profile), 2.0);
      } else {
        out := CreateNextMessage(State.CableCheck(None), CableCheckReq, 2.0);
      }
    }

    /** The power delivery request that both PowerDelivery and DCPreCharge build from the stored schedule. */
    method CreatePowerDelivery(env: Env) returns (out: Outcome)
      requires next == Stay
      modifies this
      ensures (Settled(), out) == DeliverPower(old(Settled()), env)
    {
      var profile := BuildProfile(Settled(), offer, env);
      if profile.NoSchedule? {
        next, out := End, Raised;
        return;
      }
      evProcessing := Finished;
      if profile.NotReady? {
        evProcessing := Ongoing;
      }
      out := CreateNextMessage(State.PowerDelivery, DeliveryRequest(profile), 2.0);
    }

    method ProcessPowerDelivery(res: Response, env: Env) returns (out: Outcome)
      requires next == Stay && current.PowerDelivery?
      modifies this
      ensures (Settled(), out) == old(Step(Settled(), res, env))
    {
      hide Agrees;
      hide LeavesServices;
      var ok;
      ok, out := CheckMessage(res);
      if !ok { return; }
      if evProcessing == Ongoing {
        out := CreatePowerDelivery(env);
      } else if selected.None? {
        next, out := End, Raised;
      } else if stop == Some(ServiceRenegotiation) || stop == Some(ChargingSession.Terminate) {
        if IsDc(selected.value.service) {
          out := CreateNextMessage(State.Welding(false, None), WeldingReq(Ongoing), 2.0);
        } else {
          out := CreateNextMessage(State.SessionStop, SessionStopReq(stop.value), 2.0);
        }
      } else if IsAc(selected.value.service) {
        out := CreateNextMessage(State.AcLoop, AcLoopReq, 0.5);
      } else if IsDc(selected.value.service) {
        out := CreateNextMessage(State.DcLoop(None), DcLoopReq, 0.5);
      } else {
        next, out := End, Raised;
      }
    }

    method ProcessSessionStop(res: Response, env: Env) returns (out: Outcome)
      requires next == Stay && current.SessionStop?
      modifies this
      ensures (Settled(), out) == old(Step(Settled(), res, env))
    {
      var ok;
      ok, out := CheckMessage(res);
      if !ok { return; }
      if stop.None? {
        next, out := End, Raised;
      } else if renegotiationSupported && renegotiationRequested {
        renegotiationRequested := false;
        next, out := End, Raised;
      } else {
        next, out := End, Quit(None, true);
      }
    }

    /** ACChargeLoop, which moves to a new loop state, and DCChargeLoop, which stays. */
    method ProcessChargeLoop(res: Response, env: Env) returns (out: Outcome)
      requires next == Stay && (current.AcLoop? || current.DcLoop?)
      modifies this
      ensures (Settled(), out) == old(Step(Settled(), res, env))
    {
      hide Agrees;
      hide LeavesServices;
      hide Step;
      LoopStep(Settled(), res, env);
      var ok;
      ok, out := CheckMessage(res);
      if !ok { return; }
      if res.body.status.Some? {
        if res.body.status.value.NotifyOther? {
          next, out := End, Raised;
          return;
        }
        out := StopV20Charging(res.body.status.value.NotifyServiceRenegotiation?);
      } else if env.continueCharging {
        if current.DcLoop? {
          current := State.DcLoop(Some(DcLoopReq));
          wait, out := 0.5, Sent(DcLoopReq);
        } else if selected.Some? && IsAc(selected.value.service) {
          out := CreateNextMessage(State.AcLoop, AcLoopReq, 0.5);
        } else {
          next, out := End, Raised;
        }
      } else {
        out := StopV20Charging(false);
      }
    }

    method StopV20Charging(renegotiate: bool) returns (out: Outcome)
      requires next == Stay
      modifies this
      ensures (Settled(), out) == StopCharging(old(Settled()), renegotiate)
    {
      out := CreateNextMessage(State.PowerDelivery, PowerDeliveryReq(Finished, Stop, None), 2.0);
      if renegotiate {
        renegotiationRequested := true;
        stop := Some(ServiceRenegotiation);
      } else {
        stop := Some(ChargingSession.Terminate);
      }
    }

    method ProcessCableCheck(res: Response, env: Env) returns (out: Outcome)
      requires next == Stay && current.CableCheck?
      modifies this
      ensures (Settled(), out) == old(Step(Settled(), res, env))
    {
      hide Agrees;
      hide LeavesServices;
      var ok;
      ok, out := CheckMessage(res);
      if !ok { return; }
      if res.body.processing == Finished {
        timer := -1.0;
        out := CreateNextMessage(State.PreCharge(false, None), PreChargeReq(Ongoing), 2.0);
      } else {
        if timer >= 0.0 {
          if env.now - timer > CableCheckTimeout {
            out := StopStateMachine();
            return;
          }
        } else {
          timer := env.now;
        }
        current := State.CableCheck(Some(CableCheckReq));
        wait, out := 2.0, Sent(CableCheckReq);
      }
    }

    method ProcessPreCharge(res: Response, env: Env) returns (out: Outcome)
      requires next == Stay && current.PreCharge?
      modifies this
      ensures (Settled(), out) == old(Step(Settled(), res, env))
    {
      hide Agrees;
      hide LeavesServices;
      var ok;
      ok, out := CheckMessage(res);
      if !ok { return; }
      if env.precharged && current.builtOnce {
        out := CreatePowerDelivery(env);
      } else {
        var processing := Ongoing;
        if env.stillPrecharged {
          processing := Finished;
        }
        current := State.PreCharge(true, Some(PreChargeReq(processing)));
        wait, out := 2.0, Sent(PreChargeReq(processing));
      }
    }

    /** The response is not looked at: this state never calls `check_msg`. */
    method ProcessWelding(env: Env) returns (out: Outcome)
      requires next == Stay && current.Welding?
      modifies this
      ensures (Settled(), out) == OnWelding(old(Settled()), env)
    {
      if timer > 0.0 {
        if env.now - timer > OngoingTimeout {
          out := StopStateMachine();
          return;
        }
      } else if timer == -1.0 {
        timer := env.now;
      }
      if current.complete {
        out := CreateNextMessage(State.SessionStop, SessionStopReq(ChargingSession.Terminate), 2.0);
      } else {
        var complete, processing := false, Ongoing;
        if env.weldingFinished {
          processing := Finished;
          complete := true;
        }
        current := State.Welding(complete, Some(WeldingReq(processing)));
        wait, out := 2.0, Sent(WeldingReq(processing));
      }
    }
  }

  lemma AppendEntries(matched: seq<MatchedService>, a: seq<Service>, b: seq<Service>)
    ensures matched + Entries(a, true) + Entries(b, true) == matched + Entries(a + b, true)
  {
  }
}
