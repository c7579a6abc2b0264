/**
 Two joint runs: one in which the car loses its precharge and the station refuses the next
 request, and one in which a value-added service reuses the energy service id and both sides
 go on with different parameter sets.
 */
module JointWitness {
  import opened Options
  import opened Messages
  import opened JointSessions
  import E = EvccProtocol
  import S = SeccProtocol

  const Only := ParameterSet(1, [Dynamic])
  const Choice := Some(SelectedService(Dc, Only))

  /** A healthy station and a car whose every answer is yes, except that the precharge test may fail. */
  function Calm(vas: seq<S.VasOffer>, precharged: bool): Turn {
    Turn(S.Env("1", false, false, true, false, S.Accepted, false, [Dc], vas, [Only],
               true, true, true, [], false, Some(true), true, S.Valid, true, None, 400.0, 8000.0),
         E.Env(1.0, false, false, false, [Dc], None, true, precharged, true, true, true))
  }

  function Car(state: E.State): E.Session { E.Initial.(state := state, sid := "1") }

  function Station(state: S.State): S.Session { S.Initial.(state := state, sid := "1") }

  function Listing(state: E.State): E.Session { Car(state).(matched := [MatchedService(Dc, true, [])], wait := 5.0) }

  function ChosenCar(state: E.State): E.Session {
    Car(state).(matched := [MatchedService(Dc, true, [Only])], selected := Choice, mode := Some(Dynamic))
  }

  function ChosenStation(state: S.State): S.Session {
    Station(state).(matched := [MatchedService(Dc, true, [Only])], selected := Choice, mode := Some(Dynamic))
  }

  /** The joint session after n calm turns. */
  function Stage(n: nat): Joint
    requires n <= 6
  {
    match n
    case 0 => Opening
    case 1 => Running(Car(E.State.AuthorizationSetup), AuthorizationSetupReq, Station(S.State.AuthorizationSetup(true)))
    case 2 => Running(Car(E.State.Authorization), AuthorizationReq(false, false), Station(S.State.AuthorizationSetup(false)))
    case 3 => Running(Car(E.State.ServiceDiscovery), ServiceDiscoveryReq, Station(S.State.Authorization(false)))
    case 4 => Running(Listing(E.State.ServiceDetail), ServiceDetailReq(Dc),
                      Station(S.State.ServiceDiscovery(false)).(matched := [MatchedService(Dc, true, [])]))
    case 5 => Running(ChosenCar(E.State.ServiceSelection), ServiceSelectionReq(Pick(Dc, 1), []),
                      Station(S.State.ServiceDetail(false)).(matched := [MatchedService(Dc, true, [Only])]))
    case 6 => Running(ChosenCar(E.State.DcParameters).(isAc := false), DcParametersReq, ChosenStation(S.State.DcParameters))
  }

  lemma SetupStage(vas: seq<S.VasOffer>)
    ensures Next(Stage(0), Calm(vas, true)) == Stage(1)
  {
    hide S.Step;
    hide E.Step;
    var j, turn, next := Stage(0), Calm(vas, true), Stage(1);
    var res := Response("1", false, SessionSetupRes);
    assert S.Step(j.secc, j.evcc.sid, j.pending, turn.secc) == (next.secc, S.Replied(res)) by {
      S.SessionSetupStep(j.secc, j.evcc.sid, j.pending, turn.secc);
    }
    assert E.Step(j.evcc, res, turn.evcc) == (next.evcc, E.Sent(next.pending)) by {
      E.SessionSetupStep(j.evcc, res, turn.evcc);
    }
    Exchange(j, turn, next.secc, res, next.evcc, E.Sent(next.pending));
  }

  lemma AuthorizationSetupStage(vas: seq<S.VasOffer>)
    ensures Next(Stage(1), Calm(vas, true)) == Stage(2)
  {
    hide S.Step;
    hide E.Step;
    var j, turn, next := Stage(1), Calm(vas, true), Stage(2);
    var res := Response("1", false, AuthorizationSetupRes(false, false));
    assert S.Step(j.secc, j.evcc.sid, j.pending, turn.secc) == (next.secc, S.Replied(res)) by {
      S.AuthorizationSetupStep(j.secc, j.evcc.sid, j.pending, turn.secc);
    }
    assert E.Step(j.evcc, res, turn.evcc) == (next.evcc, E.Sent(next.pending)) by {
      E.AuthorizationSetupStep(j.evcc, res, turn.evcc);
    }
    Exchange(j, turn, next.secc, res, next.evcc, E.Sent(next.pending));
  }

  lemma AuthorizationStage(vas: seq<S.VasOffer>)
    ensures Next(Stage(2), Calm(vas, true)) == Stage(3)
  {
    hide S.Step;
    hide E.Step;
    var j, turn, next := Stage(2), Calm(vas, true), Stage(3);
    var res := Response("1", false, AuthorizationRes(Finished));
    assert S.Step(j.secc, j.evcc.sid, j.pending, turn.secc) == (next.secc, S.Replied(res)) by {
      S.AuthorizationStep(j.secc, j.evcc.sid, j.pending, turn.secc);
    }
    assert E.Step(j.evcc, res, turn.evcc) == (next.evcc, E.Sent(next.pending)) by {
      E.AuthorizationStep(j.evcc, res, turn.evcc);
    }
    Exchange(j, turn, next.secc, res, next.evcc, E.Sent(next.pending));
  }

  lemma SingleMatch(service: Service)
    ensures E.Matching([service], [service]) == [service]
  {
    assert [service][..0] == [];
    assert E.Repeated(service, []) == [];
    assert E.Repeated(service, [service]) == [service];
  }

  lemma CarDiscovers(vas: seq<Service>, env: E.Env)
    requires env.supported == [Dc]
    ensures E.OnServiceDiscovery(Car(E.State.ServiceDiscovery), false, [Dc], vas, env)
         == (Listing(E.State.ServiceDetail).(matched := [MatchedService(Dc, true, [])] + E.Entries(vas, false)), E.Sent(ServiceDetailReq(Dc)))
  {
    hide E.OnServiceDiscovery;
    SingleMatch(Dc);
    E.DiscoveryEffect(Car(E.State.ServiceDiscovery), false, [Dc], vas, env);
    assert E.Entries([Dc], true) == [MatchedService(Dc, true, [])];
  }

  lemma OnlyLists()
    ensures [] + S.Offered([Dc]) + S.OfferedVas([]) == [MatchedService(Dc, true, [])]
    ensures S.VasServices([]) == []
    ensures [MatchedService(Dc, true, [])] + E.Entries([], false) == [MatchedService(Dc, true, [])]
  {
  }

  lemma DiscoveryAnswer()
    ensures S.Step(Stage(3).secc, Stage(3).evcc.sid, Stage(3).pending, Calm([], true).secc)
         == (Stage(4).secc, S.Replied(Response("1", false, ServiceDiscoveryRes(false, [Dc], []))))
  {
    hide S.Step;
    hide S.Offered;
    hide S.OfferedVas;
    hide S.VasServices;
    var j := Stage(3);
    OnlyLists();
    S.ServiceDiscoveryStep(j.secc, j.evcc.sid, j.pending, Calm([], true).secc);
  }

  lemma DiscoveryReaction()
    ensures E.Step(Stage(3).evcc, Response("1", false, ServiceDiscoveryRes(false, [Dc], [])), Calm([], true).evcc)
         == (Stage(4).evcc, E.Sent(Stage(4).pending))
  {
    hide E.Step;
    hide E.OnServiceDiscovery;
    hide E.Entries;
    var j := Stage(3);
    var res := Response("1", false, ServiceDiscoveryRes(false, [Dc], []));
    OnlyLists();
    CarDiscovers([], Calm([], true).evcc);
    E.ServiceDiscoveryStep(j.evcc, res, Calm([], true).evcc);
  }

  lemma DiscoveryStage()
    ensures Next(Stage(3), Calm([], true)) == Stage(4)
  {
    hide S.Step;
    hide E.Step;
    DiscoveryAnswer();
    DiscoveryReaction();
    var next := Stage(4);
    Exchange(Stage(3), Calm([], true), next.secc, Response("1", false, ServiceDiscoveryRes(false, [Dc], [])), next.evcc, E.Sent(next.pending));
  }

  lemma OnlyDetails()
    ensures E.StoreAll([MatchedService(Dc, true, [])], Dc, [Only]) == [MatchedService(Dc, true, [Only])]
    ensures S.StoreFirst([MatchedService(Dc, true, [])], Dc, [Only]) == [MatchedService(Dc, true, [Only])]
    ensures E.SelectVas([MatchedService(Dc, true, [Only])], None) == []
  {
  }

  lemma OnlyListed()
    ensures S.Lists([MatchedService(Dc, true, [])], Dc)
  {
    assert [MatchedService(Dc, true, [])][0].service == Dc;
  }

  lemma DetailAnswer()
    ensures S.Step(Stage(4).secc, Stage(4).evcc.sid, Stage(4).pending, Calm([], true).secc)
         == (Stage(5).secc, S.Replied(Response("1", false, ServiceDetailRes(Dc, [Only]))))
  {
    hide S.Step;
    hide S.StoreFirst;
    hide S.Lists;
    OnlyDetails();
    OnlyListed();
    S.ServiceDetailStep(Stage(4).secc, Stage(4).evcc.sid, Stage(4).pending, Calm([], true).secc);
  }

  lemma DetailChoice()
    ensures E.AfterDetail(Listing(E.State.ServiceDetail).(matched := [MatchedService(Dc, true, [Only])]), Calm([], true).evcc)
         == (ChosenCar(E.State.ServiceSelection), E.Sent(ServiceSelectionReq(Pick(Dc, 1), [])))
  {
    hide E.AfterDetail;
    hide E.AmongServices;
    hide E.SelectVas;
    OnlyDetails();
    E.SelectionEffect(Listing(E.State.ServiceDetail).(matched := [MatchedService(Dc, true, [Only])]), Calm([], true).evcc);
  }

  lemma DetailReaction()
    ensures E.Step(Stage(4).evcc, Response("1", false, ServiceDetailRes(Dc, [Only])), Calm([], true).evcc)
         == (Stage(5).evcc, E.Sent(Stage(5).pending))
  {
    hide E.Step;
    hide E.AfterDetail;
    hide E.AmongServices;
    hide E.StoreAll;
    OnlyDetails();
    DetailChoice();
    E.ServiceDetailStep(Stage(4).evcc, Response("1", false, ServiceDetailRes(Dc, [Only])), Calm([], true).evcc);
  }

  lemma DetailStage()
    ensures Next(Stage(4), Calm([], true)) == Stage(5)
  {
    hide S.Step;
    hide E.Step;
    DetailAnswer();
    DetailReaction();
    var next := Stage(5);
    Exchange(Stage(4), Calm([], true), next.secc, Response("1", false, ServiceDetailRes(Dc, [Only])), next.evcc, E.Sent(next.pending));
  }

  lemma OnlyChoice(mode: Option<ControlMode>)
    ensures S.PairOffered([MatchedService(Dc, true, [Only])], Pick(Dc, 1)) && S.AllOffered([MatchedService(Dc, true, [Only])], [])
    ensures S.Chosen([MatchedService(Dc, true, [Only])], Pick(Dc, 1)) == Choice
    ensures S.ChosenMode([MatchedService(Dc, true, [Only])], Pick(Dc, 1), mode) == Some(Dynamic)
  {
    var list := [MatchedService(Dc, true, [Only])];
    assert list[0].sets[0].id == 1;
    assert S.FirstSet([Only], 1) == Some(Only);
  }

  lemma SelectionAnswer()
    ensures S.Step(Stage(5).secc, Stage(5).evcc.sid, Stage(5).pending, Calm([], true).secc)
         == (Stage(6).secc, S.Replied(Response("1", false, ServiceSelectionRes)))
  {
    hide S.Step;
    hide S.Chosen;
    hide S.ChosenMode;
    hide S.PairOffered;
    hide S.AllOffered;
    var j := Stage(5);
    OnlyChoice(None);
    S.ServiceSelectionStep(j.secc, j.evcc.sid, j.pending, Calm([], true).secc);
  }

  lemma SelectionReaction()
    ensures E.Step(Stage(5).evcc, Response("1", false, ServiceSelectionRes), Calm([], true).evcc)
         == (Stage(6).evcc, E.Sent(Stage(6).pending))
  {
    hide E.Step;
    var j := Stage(5);
    var res := Response("1", false, ServiceSelectionRes);
    E.ServiceSelectionStep(j.evcc, res, Calm([], true).evcc);
  }

  lemma SelectionStage()
    ensures Next(Stage(5), Calm([], true)) == Stage(6)
  {
    hide S.Step;
    hide E.Step;
    SelectionAnswer();
    SelectionReaction();
    var next := Stage(6);
    Exchange(Stage(5), Calm([], true), next.secc, Response("1", false, ServiceSelectionRes), next.evcc, E.Sent(next.pending));
  }

  lemma Extend(turns: seq<Turn>, turn: Turn, before: Joint, after: Joint)
    requires Run(turns) == before && Next(before, turn) == after
    ensures Run(turns + [turn]) == after
  {
    assert (turns + [turn])[..|turns|] == turns;
  }

  /** Three turns in which the offer plays no part. */
  lemma CalmStart(vas: seq<S.VasOffer>) returns (turns: seq<Turn>)
    ensures turns == [Calm(vas, true), Calm(vas, true), Calm(vas, true)]
    ensures Run(turns) == Stage(3)
  {
    hide Next;
    SetupStage(vas);
    AuthorizationSetupStage(vas);
    AuthorizationStage(vas);
    Extend([], Calm(vas, true), Stage(0), Stage(1));
    turns := [] + [Calm(vas, true)];
    Extend(turns, Calm(vas, true), Stage(1), Stage(2));
    turns := turns + [Calm(vas, true)];
    Extend(turns, Calm(vas, true), Stage(2), Stage(3));
    turns := turns + [Calm(vas, true)];
  }

  lemma CalmServices(start: seq<Turn>) returns (turns: seq<Turn>)
    requires Run(start) == Stage(3)
    ensures Run(turns) == Stage(6)
  {
    hide Next;
    hide Stage;
    DiscoveryStage();
    DetailStage();
    SelectionStage();
    Extend(start, Calm([], true), Stage(3), Stage(4));
    turns := start + [Calm([], true)];
    Extend(turns, Calm([], true), Stage(4), Stage(5));
    turns := turns + [Calm([], true)];
    Extend(turns, Calm([], true), Stage(5), Stage(6));
    turns := turns + [Calm([], true)];
  }

  /** A session of the chosen DC service, ready for the next calm turn. */
  predicate Healthy(j: Joint) {
    && j.Running? && LinkedJoint(j) && j.evcc.sid == "1" && !j.evcc.isAc && !j.evcc.evProcessing.Ongoing?
    && j.evcc.mode == Some(Dynamic) && j.secc.mode == Some(Dynamic) && j.evcc.timer <= 1.0
  }

  const CalmTurn := Calm([], true)

  /** A calm turn keeps the link, since the precharge is not lost. */
  lemma StaysHealthy(j: Joint)
    requires Healthy(j) && j.pending != PreChargeReq(Finished)
    ensures LinkedJoint(Next(j, CalmTurn))
  {
    StepKeepsLink(j, CalmTurn);
  }

  lemma AtParameters()
    ensures Healthy(Stage(6)) && Stage(6).evcc.state.DcParameters?
  {
  }

  lemma CalmParameters(j: Joint)
    requires Healthy(j) && j.evcc.state.DcParameters?
    ensures var next := Next(j, CalmTurn); Healthy(next) && next.evcc.state.ScheduleExchange?
  {
    hide S.Step;
    hide E.Step;
    StaysHealthy(j);
    LinkedPasses(j.evcc, j.pending, j.secc);
    S.DcParametersStep(j.secc, j.evcc.sid, j.pending, CalmTurn.secc);
    E.ChargeParametersStep(j.evcc, S.Step(j.secc, j.evcc.sid, j.pending, CalmTurn.secc).1.res, CalmTurn.evcc);
  }

  lemma CalmSchedule(j: Joint)
    requires Healthy(j) && j.evcc.state.ScheduleExchange?
    ensures var next := Next(j, CalmTurn);
      Healthy(next) && next.evcc.state.CableCheck? && next.secc.state.ScheduleExchange?
  {
    hide S.Step;
    hide E.Step;
    StaysHealthy(j);
    LinkedPasses(j.evcc, j.pending, j.secc);
    S.ScheduleExchangeStep(j.secc, j.evcc.sid, j.pending, CalmTurn.secc);
    E.ScheduleExchangeStep(j.evcc, S.Step(j.secc, j.evcc.sid, j.pending, CalmTurn.secc).1.res, CalmTurn.evcc);
  }

  lemma CalmContactor(j: Joint)
    requires Healthy(j) && j.evcc.state.CableCheck? && j.secc.state.ScheduleExchange?
    ensures var next := Next(j, CalmTurn);
      Healthy(next) && next.evcc.state.CableCheck? && next.secc.state == S.State.CableCheck(true, true)
  {
    hide S.Step;
    hide E.Step;
    StaysHealthy(j);
    LinkedPasses(j.evcc, j.pending, j.secc);
    S.CableCheckStep(j.secc, j.evcc.sid, j.pending, CalmTurn.secc);
    E.CableCheckStep(j.evcc, S.Step(j.secc, j.evcc.sid, j.pending, CalmTurn.secc).1.res, CalmTurn.evcc);
  }

  lemma CalmIsolation(j: Joint)
    requires Healthy(j) && j.evcc.state.CableCheck? && j.secc.state == S.State.CableCheck(true, true)
    ensures var next := Next(j, CalmTurn); Healthy(next) && next.evcc.state.PreCharge? && next.pending == PreChargeReq(Ongoing)
  {
    hide S.Step;
    hide E.Step;
    StaysHealthy(j);
    LinkedPasses(j.evcc, j.pending, j.secc);
    S.CableCheckStep(j.secc, j.evcc.sid, j.pending, CalmTurn.secc);
    E.CableCheckStep(j.evcc, S.Step(j.secc, j.evcc.sid, j.pending, CalmTurn.secc).1.res, CalmTurn.evcc);
  }

  /** The car has not built a precharge request in this state yet, so it announces the end instead of going on. */
  lemma CalmPreCharge(j: Joint)
    requires Healthy(j) && j.evcc.state.PreCharge? && !j.evcc.state.builtOnce
    ensures var next := Next(j, CalmTurn); Healthy(next) && next.evcc.state.PreCharge? && next.pending == PreChargeReq(Finished)
  {
    hide S.Step;
    hide E.Step;
    OngoingFirst(j);
    StaysHealthy(j);
    LinkedPasses(j.evcc, j.pending, j.secc);
    S.PreChargeStep(j.secc, j.evcc.sid, j.pending, CalmTurn.secc);
    E.PreChargeStep(j.evcc, S.Step(j.secc, j.evcc.sid, j.pending, CalmTurn.secc).1.res, CalmTurn.evcc);
  }

  lemma OngoingFirst(j: Joint)
    requires j.Running? && LinkedJoint(j) && j.evcc.state.PreCharge? && !j.evcc.state.builtOnce
    ensures j.pending == PreChargeReq(Ongoing)
  {
  }

  lemma FirstPreCharge(j: Joint)
    requires Healthy(j) && j.evcc.state.CableCheck? && j.secc.state == S.State.CableCheck(true, true)
    ensures var next := Next(j, CalmTurn); next.Running? && next.evcc.state.PreCharge? ==> !next.evcc.state.builtOnce
  {
    hide S.Step;
    hide E.Step;
    var answer := S.Step(j.secc, j.evcc.sid, j.pending, CalmTurn.secc).1;
    if answer.Replied? {
      E.CableCheckStep(j.evcc, answer.res, CalmTurn.evcc);
    }
  }

  lemma CalmDc(start: seq<Turn>) returns (turns: seq<Turn>)
    requires Run(start) == Stage(6)
    ensures Healthy(Run(turns)) && Run(turns).evcc.state.PreCharge? && Run(turns).pending == PreChargeReq(Finished)
  {
    hide Next;
    hide Stage;
    hide LinkedJoint;
    AtParameters();
    CalmParameters(Run(start));
    OneMore(start);
    turns := start + [CalmTurn];
    CalmSchedule(Run(turns));
    OneMore(turns);
    turns := turns + [CalmTurn];
    CalmContactor(Run(turns));
    OneMore(turns);
    turns := turns + [CalmTurn];
    CalmIsolation(Run(turns));
    FirstPreCharge(Run(turns));
    OneMore(turns);
    turns := turns + [CalmTurn];
    CalmPreCharge(Run(turns));
    OneMore(turns);
    turns := turns + [CalmTurn];
  }

  lemma OneMore(turns: seq<Turn>)
    ensures Run(turns + [CalmTurn]) == Next(Run(turns), CalmTurn)
  {
    Extend(turns, CalmTurn, Run(turns), Next(Run(turns), CalmTurn));
  }

  /** Eleven calm turns, then a precharge test that fails after the car announced the end of the precharge. */
  lemma LostPrecharge() returns (turns: seq<Turn>)
    ensures Run(turns).Running? && Run(turns).pending == PreChargeReq(Finished)
    ensures !Accepted(Run(turns + [Calm([], false)]))
  {
    hide Next;
    hide Accepted;
    turns := CalmStart([]);
    turns := CalmServices(turns);
    turns := CalmDc(turns);
    UnsteadyIsRefused(Run(turns), Calm([], false));
    Extend(turns, Calm([], false), Run(turns), Next(Run(turns), Calm([], false)));
  }

  // A value-added service under the energy service id.

  const Other := ParameterSet(1, [Scheduled])
  const Reused := [S.VasOffer(Dc, [Other])]
  const SharedList := [MatchedService(Dc, true, [Only]), MatchedService(Dc, false, [Other])]

  function SharedCar(state: E.State): E.Session {
    ChosenCar(state).(matched := [MatchedService(Dc, true, [Only]), MatchedService(Dc, false, [Only])])
  }

  /** The joint session after n turns when the value-added service reuses the id of the energy service. */
  function SharedStage(n: nat): Joint
    requires 3 <= n <= 6
  {
    match n
    case 3 => Stage(3)
    case 4 => Running(Listing(E.State.ServiceDetail).(matched := [MatchedService(Dc, true, []), MatchedService(Dc, false, [])]), ServiceDetailReq(Dc),
                      Station(S.State.ServiceDiscovery(false)).(matched := [MatchedService(Dc, true, []), MatchedService(Dc, false, [Other])]))
    case 5 => Running(SharedCar(E.State.ServiceSelection), ServiceSelectionReq(Pick(Dc, 1), [Pick(Dc, 1)]),
                      Station(S.State.ServiceDetail(false)).(matched := SharedList))
    case 6 => Running(SharedCar(E.State.DcParameters).(isAc := false), DcParametersReq,
                      Station(S.State.DcParameters).(matched := SharedList, selected := Some(SelectedService(Dc, Other)), mode := Some(Scheduled)))
  }

  lemma SharedLists()
    ensures [] + S.Offered([Dc]) + S.OfferedVas(Reused) == [MatchedService(Dc, true, []), MatchedService(Dc, false, [Other])]
    ensures S.VasServices(Reused) == [Dc]
    ensures [MatchedService(Dc, true, [])] + E.Entries([Dc], false) == [MatchedService(Dc, true, []), MatchedService(Dc, false, [])]
  {
  }

  lemma SharedDiscoveryAnswer()
    ensures S.Step(SharedStage(3).secc, SharedStage(3).evcc.sid, SharedStage(3).pending, Calm(Reused, true).secc)
         == (SharedStage(4).secc, S.Replied(Response("1", false, ServiceDiscoveryRes(false, [Dc], [Dc]))))
  {
    hide S.Step;
    hide S.Offered;
    hide S.OfferedVas;
    hide S.VasServices;
    var j := SharedStage(3);
    SharedLists();
    S.ServiceDiscoveryStep(j.secc, j.evcc.sid, j.pending, Calm(Reused, true).secc);
  }

  lemma SharedDiscovers()
    ensures E.OnServiceDiscovery(Car(E.State.ServiceDiscovery), false, [Dc], [Dc], Calm(Reused, true).evcc)
         == (Listing(E.State.ServiceDetail).(matched := [MatchedService(Dc, true, []), MatchedService(Dc, false, [])]),
             E.Sent(ServiceDetailReq(Dc)))
  {
    hide E.OnServiceDiscovery;
    hide E.Entries;
    SharedLists();
    CarDiscovers([Dc], Calm(Reused, true).evcc);
  }

  lemma SharedDiscoveryReaction()
    ensures E.Step(SharedStage(3).evcc, Response("1", false, ServiceDiscoveryRes(false, [Dc], [Dc])), Calm(Reused, true).evcc)
         == (SharedStage(4).evcc, E.Sent(SharedStage(4).pending))
  {
    hide E.Step;
    hide E.OnServiceDiscovery;
    SharedDiscovers();
    E.ServiceDiscoveryStep(SharedStage(3).evcc, Response("1", false, ServiceDiscoveryRes(false, [Dc], [Dc])), Calm(Reused, true).evcc);
  }

  lemma SharedDiscoveryStage()
    ensures Next(SharedStage(3), Calm(Reused, true)) == SharedStage(4)
  {
    hide S.Step;
    hide E.Step;
    SharedDiscoveryAnswer();
    SharedDiscoveryReaction();
    var next := SharedStage(4);
    Exchange(SharedStage(3), Calm(Reused, true), next.secc, Response("1", false, ServiceDiscoveryRes(false, [Dc], [Dc])), next.evcc, E.Sent(next.pending));
  }

  /** The car fills both of its entries, the station only the first of its own. */
  lemma SharedDetails()
    ensures E.StoreAll([MatchedService(Dc, true, []), MatchedService(Dc, false, [])], Dc, [Only]) == SharedCar(E.State.ServiceDetail).matched
    ensures S.StoreFirst([MatchedService(Dc, true, []), MatchedService(Dc, false, [Other])], Dc, [Only]) == SharedList
    ensures E.SelectVas(SharedCar(E.State.ServiceDetail).matched, None) == [Pick(Dc, 1)]
  {
    assert SharedCar(E.State.ServiceDetail).matched[1..] == [MatchedService(Dc, false, [Only])];
    assert [MatchedService(Dc, false, [Only])][1..] == [];
  }

  lemma SharedDetailAnswer()
    ensures S.Step(SharedStage(4).secc, SharedStage(4).evcc.sid, SharedStage(4).pending, Calm(Reused, true).secc)
         == (SharedStage(5).secc, S.Replied(Response("1", false, ServiceDetailRes(Dc, [Only]))))
  {
    hide S.Step;
    hide S.StoreFirst;
    var j := SharedStage(4);
    SharedDetails();
    assert j.secc.matched[0].service == Dc;
    S.ServiceDetailStep(j.secc, j.evcc.sid, j.pending, Calm(Reused, true).secc);
  }

  lemma SharedDetailChoice()
    ensures var matched := SharedCar(E.State.ServiceDetail).matched;
      E.AfterDetail(Listing(E.State.ServiceDetail).(matched := matched), Calm(Reused, true).evcc)
        == (SharedCar(E.State.ServiceSelection), E.Sent(ServiceSelectionReq(Pick(Dc, 1), [Pick(Dc, 1)])))
  {
    hide E.AfterDetail;
    hide E.AmongServices;
    hide E.SelectVas;
    SharedDetails();
    E.SelectionEffect(Listing(E.State.ServiceDetail).(matched := SharedCar(E.State.ServiceDetail).matched), Calm(Reused, true).evcc);
  }

  lemma SharedDetailReaction()
    ensures E.Step(SharedStage(4).evcc, Response("1", false, ServiceDetailRes(Dc, [Only])), Calm(Reused, true).evcc)
         == (SharedStage(5).evcc, E.Sent(SharedStage(5).pending))
  {
    hide E.Step;
    hide E.AfterDetail;
    hide E.AmongServices;
    hide E.StoreAll;
    SharedDetails();
    SharedDetailChoice();
    E.ServiceDetailStep(SharedStage(4).evcc, Response("1", false, ServiceDetailRes(Dc, [Only])), Calm(Reused, true).evcc);
  }

  lemma SharedDetailStage()
    ensures Next(SharedStage(4), Calm(Reused, true)) == SharedStage(5)
  {
    hide S.Step;
    hide E.Step;
    SharedDetailAnswer();
    SharedDetailReaction();
    var next := SharedStage(5);
    Exchange(SharedStage(4), Calm(Reused, true), next.secc, Response("1", false, ServiceDetailRes(Dc, [Only])), next.evcc, E.Sent(next.pending));
  }

  lemma SharedChoice(mode: Option<ControlMode>)
    ensures S.PairOffered(SharedList, Pick(Dc, 1)) && S.AllOffered(SharedList, [Pick(Dc, 1)])
    ensures S.Chosen(SharedList, Pick(Dc, 1)) == Some(SelectedService(Dc, Other))
    ensures S.ChosenMode(SharedList, Pick(Dc, 1), mode) == Some(Scheduled)
  {
    assert SharedList[0].sets[0].id == 1;
    assert S.FirstSet([Other], 1) == Some(Other);
  }

  lemma SharedSelectionAnswer()
    ensures S.Step(SharedStage(5).secc, SharedStage(5).evcc.sid, SharedStage(5).pending, Calm(Reused, true).secc)
         == (SharedStage(6).secc, S.Replied(Response("1", false, ServiceSelectionRes)))
  {
    hide S.Step;
    hide S.Chosen;
    hide S.ChosenMode;
    hide S.PairOffered;
    hide S.AllOffered;
    var j := SharedStage(5);
    SharedChoice(None);
    S.ServiceSelectionStep(j.secc, j.evcc.sid, j.pending, Calm(Reused, true).secc);
  }

  lemma SharedSelectionReaction()
    ensures E.Step(SharedStage(5).evcc, Response("1", false, ServiceSelectionRes), Calm(Reused, true).evcc)
         == (SharedStage(6).evcc, E.Sent(SharedStage(6).pending))
  {
    hide E.Step;
    var j := SharedStage(5);
    var res := Response("1", false, ServiceSelectionRes);
    E.ServiceSelectionStep(j.evcc, res, Calm(Reused, true).evcc);
  }

  lemma SharedSelectionStage()
    ensures Next(SharedStage(5), Calm(Reused, true)) == SharedStage(6)
  {
    hide S.Step;
    hide E.Step;
    SharedSelectionAnswer();
    SharedSelectionReaction();
    var next := SharedStage(6);
    Exchange(SharedStage(5), Calm(Reused, true), next.secc, Response("1", false, ServiceSelectionRes), next.evcc, E.Sent(next.pending));
  }

  /** A run after which the car has the Dynamic set it was told of first and the station the Scheduled one, both going on. */
  lemma SharedIdDisagrees() returns (turns: seq<Turn>)
    ensures var j := Run(turns);
      && j.Running? && j.evcc.state.DcParameters? && j.secc.state.DcParameters?
      && j.evcc.selected == Some(SelectedService(Dc, Only)) && j.evcc.mode == Some(Dynamic)
      && j.secc.selected == Some(SelectedService(Dc, Other)) && j.secc.mode == Some(Scheduled)
  {
    hide Next;
    turns := CalmStart(Reused);
    SharedDiscoveryStage();
    SharedDetailStage();
    SharedSelectionStage();
    Extend(turns, Calm(Reused, true), SharedStage(3), SharedStage(4));
    turns := turns + [Calm(Reused, true)];
    Extend(turns, Calm(Reused, true), SharedStage(4), SharedStage(5));
    turns := turns + [Calm(Reused, true)];
    Extend(turns, Calm(Reused, true), SharedStage(5), SharedStage(6));
    turns := turns + [Calm(Reused, true)];
  }
}
