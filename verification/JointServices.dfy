/**
 When both machines hold the same service, parameter set, control mode and schedule tuples:
 exactly when no value-added service shadows the set that the car has chosen.
 */
module JointServices {
  import opened Options
  import opened Messages
  import opened JointSessions
  import E = EvccProtocol
  import S = SeccProtocol

  /** The sets of the first entry with the id, the only entry the station ever fills. */
  function FirstSets(matched: seq<MatchedService>, service: Service): (r: Option<seq<ParameterSet>>)
    ensures r.Some? <==> S.Lists(matched, service)
  {
    if matched == [] then None
    else if matched[0].service == service then Some(matched[0].sets)
    else
      var rest := FirstSets(matched[1..], service);
      assert forall i :: 0 < i < |matched| ==> matched[i] == matched[1..][i - 1];
      rest
  }

  predicate LaterEmpty(matched: seq<MatchedService>, service: Service) {
    forall j, k :: 0 <= j < k < |matched| && matched[j].service == service && matched[k].service == service ==> matched[k].sets == []
  }

  lemma LaterEmptyTail(head: MatchedService, rest: seq<MatchedService>, service: Service)
    ensures LaterEmpty([head] + rest, service) <==>
      LaterEmpty(rest, service)
      && (head.service == service ==> forall k :: 0 <= k < |rest| && rest[k].service == service ==> rest[k].sets == [])
  {
    var all := [head] + rest;
    assert forall i :: 0 < i < |all| ==> all[i] == rest[i - 1];
    assert all[0] == head;
    if LaterEmpty(all, service) {
      forall j, k | 0 <= j < k < |rest| && rest[j].service == service && rest[k].service == service ensures rest[k].sets == [] {
        assert all[j + 1].service == service && all[k + 1].service == service;
      }
      forall k | head.service == service && 0 <= k < |rest| && rest[k].service == service ensures rest[k].sets == [] {
        assert all[k + 1].service == service;
      }
    }
  }

  lemma FirstSetsHead(head: MatchedService, rest: seq<MatchedService>, service: Service)
    ensures FirstSets([head] + rest, service) == if head.service == service then Some(head.sets) else FirstSets(rest, service)
  {
    assert ([head] + rest)[1..] == rest;
  }

  lemma StoreHead(head: MatchedService, rest: seq<MatchedService>, filled: Service, sets: seq<ParameterSet>)
    ensures S.StoreFirst([head] + rest, filled, sets) ==
      if head.service == filled then [head.(sets := sets)] + rest else [head] + S.StoreFirst(rest, filled, sets)
  {
    assert ([head] + rest)[1..] == rest;
  }

  lemma ListedInRest(head: MatchedService, rest: seq<MatchedService>, service: Service)
    requires S.Lists([head] + rest, service) && head.service != service
    ensures S.Lists(rest, service)
  {
    var all := [head] + rest;
    var i :| 0 <= i < |all| && all[i].service == service;
    assert rest[i - 1].service == service;
  }

  lemma {:induction false} FillFirst(matched: seq<MatchedService>, filled: Service, sets: seq<ParameterSet>, service: Service)
    requires S.Lists(matched, filled) && LaterEmpty(matched, service)
    ensures var after := S.StoreFirst(matched, filled, sets);
      && FirstSets(after, service) == (if service == filled then Some(sets) else FirstSets(matched, service))
      && LaterEmpty(after, service)
  {
    hide FirstSets;
    hide LaterEmpty;
    hide S.StoreFirst;
    var head, rest := matched[0], matched[1..];
    assert matched == [head] + rest;
    LaterEmptyTail(head, rest, service);
    FirstSetsHead(head, rest, service);
    StoreHead(head, rest, filled, sets);
    if head.service == filled {
      LaterEmptyTail(head.(sets := sets), rest, service);
      FirstSetsHead(head.(sets := sets), rest, service);
    } else {
      ListedInRest(head, rest, filled);
      FillFirst(rest, filled, sets, service);
      var after := S.StoreFirst(rest, filled, sets);
      LaterEmptyTail(head, after, service);
      FirstSetsHead(head, after, service);
      if head.service == service {
        assert forall k :: 0 <= k < |rest| && after[k].service == service ==> after[k] == rest[k];
      }
    }
  }

  lemma {:induction false} FirstSetsPrefix(matched: seq<MatchedService>, service: Service)
    requires matched != []
    ensures var n := |matched| - 1;
      FirstSets(matched, service) ==
        if S.Lists(matched[..n], service) then FirstSets(matched[..n], service)
        else if matched[n].service == service then Some(matched[n].sets) else None
  {
    if |matched| > 1 {
      var n := |matched| - 1;
      FirstSetsPrefix(matched[1..], service);
      assert matched[1..][..n - 1] == matched[..n][1..];
      assert matched[1..][n - 1] == matched[n];
      assert forall i :: 0 < i < n ==> matched[..n][i] == matched[..n][1..][i - 1];
    }
  }

  /** The station's loop over its matched services finds the set the car has chosen, and its mode. */
  lemma {:induction false} ChosenIsFirst(matched: seq<MatchedService>, service: Service, setId: int, mode: Option<ControlMode>)
    requires LaterEmpty(matched, service) && FirstSets(matched, service).Some?
    requires S.FirstSet(FirstSets(matched, service).value, setId).Some?
    ensures var found := S.FirstSet(FirstSets(matched, service).value, setId).value;
      && S.Chosen(matched, Pick(service, setId)) == Some(SelectedService(service, found))
      && S.ChosenMode(matched, Pick(service, setId), mode) == if ModeOf(found).Some? then ModeOf(found) else mode
  {
    var n := |matched| - 1;
    FirstSetsPrefix(matched, service);
    if S.Lists(matched[..n], service) {
      ChosenIsFirst(matched[..n], service, setId, mode);
      assert matched[n].service == service ==> matched[n].sets == [];
    } else {
      NotListed(matched[..n], service, setId, mode);
    }
  }

  lemma {:induction false} NotListed(matched: seq<MatchedService>, service: Service, setId: int, mode: Option<ControlMode>)
    requires !S.Lists(matched, service)
    ensures S.Chosen(matched, Pick(service, setId)) == None
    ensures S.ChosenMode(matched, Pick(service, setId), mode) == mode
  {
    if matched != [] {
      NotListed(matched[..|matched| - 1], service, setId, mode);
    }
  }

  /** What the station offered when the car asked for its services. */
  datatype Offer = Offer(energy: seq<Service>, vas: seq<S.VasOffer>)

  /** The offer of the turn in which a run discovered its services. */
  function OfferOf(turns: seq<Turn>): Offer {
    if turns == [] then Offer([], [])
    else
      var last := |turns| - 1;
      OfferAfter(OfferOf(turns[..last]), Run(turns[..last]), turns[last])
  }

  function OfferAfter(offer: Offer, j: Joint, turn: Turn): Offer {
    if j.Running? && j.pending.ServiceDiscoveryReq? then Offer(turn.secc.energyServices, turn.secc.vas) else offer
  }

  /** The set under these ids in the last value-added service that has one; the station prefers it to the car's. */
  function Shadow(vas: seq<S.VasOffer>, pick: Pick): Option<ParameterSet> {
    if vas == [] then None
    else
      var last := |vas| - 1;
      var here := if vas[last].service == pick.service then S.FirstSet(vas[last].sets, pick.setId) else None;
      if here.Some? then here else Shadow(vas[..last], pick)
  }

  /** No value-added service holds another set under the ids of the chosen one. */
  predicate Unshadowed(vas: seq<S.VasOffer>, chosen: SelectedService) {
    var shadow := Shadow(vas, Pick(chosen.service, chosen.parameterSet.id));
    shadow == None || shadow == Some(chosen.parameterSet)
  }

  lemma VasSnoc(vas: seq<S.VasOffer>, pick: Pick)
    requires vas != []
    ensures var last := |vas| - 1;
      var m := MatchedService(vas[last].service, false, vas[last].sets);
      && S.OfferedVas(vas) == S.OfferedVas(vas[..last]) + [m]
      && Shadow(vas, pick) == if S.SetHere(m, pick).Some? then S.SetHere(m, pick) else Shadow(vas[..last], pick)
  {
    hide S.OfferedVas;
    hide S.FirstSet;
    var last := |vas| - 1;
    assert S.OfferedVas(vas) == S.OfferedVas(vas[..last]) + [MatchedService(vas[last].service, false, vas[last].sets)];
  }

  /** The loop over all matched services: the value-added ones come last and win. */
  lemma {:induction false} ChosenBehind(part: seq<MatchedService>, vas: seq<S.VasOffer>, pick: Pick, mode: Option<ControlMode>)
    ensures var all, shadow := part + S.OfferedVas(vas), Shadow(vas, pick);
      && S.Chosen(all, pick) == (if shadow.Some? then Some(SelectedService(pick.service, shadow.value)) else S.Chosen(part, pick))
      && (shadow.None? ==> S.ChosenMode(all, pick, mode) == S.ChosenMode(part, pick, mode))
      && (shadow.Some? && ModeOf(shadow.value).Some? ==> S.ChosenMode(all, pick, mode) == ModeOf(shadow.value))
  {
    hide S.Chosen;
    hide S.ChosenMode;
    if vas == [] {
      assert part + S.OfferedVas(vas) == part;
    } else {
      hide S.OfferedVas;
      hide Shadow;
      hide S.SetHere;
      var last := |vas| - 1;
      var m := MatchedService(vas[last].service, false, vas[last].sets);
      var earlier := S.OfferedVas(vas[..last]);
      ChosenBehind(part, vas[..last], pick, mode);
      VasSnoc(vas, pick);
      S.ChosenSnoc(part + earlier, m, pick, mode);
      assert part + earlier + [m] == part + (earlier + [m]);
    }
  }

  lemma {:induction false} NoShadow(vas: seq<S.VasOffer>, pick: Pick)
    requires forall k :: 0 <= k < |vas| ==> vas[k].service != pick.service
    ensures Shadow(vas, pick) == None
  {
    if vas != [] {
      NoShadow(vas[..|vas| - 1], pick);
    }
  }

  predicate HasSetOne(sets: seq<ParameterSet>) {
    exists k :: 0 <= k < |sets| && sets[k].id == 1
  }

  /** Every value-added service has the set 1 that the car names for a service whose details it never requests. */
  predicate NameableOffer(vas: seq<S.VasOffer>) {
    forall k :: 0 <= k < |vas| ==> HasSetOne(vas[k].sets)
  }

  predicate Energy(matched: seq<MatchedService>, service: Service) {
    exists i :: 0 <= i < |matched| && matched[i].isEnergy && matched[i].service == service
  }

  predicate OffersVas(vas: seq<S.VasOffer>, service: Service) {
    exists k :: 0 <= k < |vas| && vas[k].service == service
  }

  /** An entry of the car's list agrees with the energy services at the head of the station's list. */
  predicate EntryAgrees(m: MatchedService, part: seq<MatchedService>, offer: Offer) {
    && LaterEmpty(part, m.service)
    && (m.isEnergy || m.sets != [] ==> FirstSets(part, m.service) == Some(m.sets))
    && (if m.isEnergy then m.service in offer.energy else OffersVas(offer.vas, m.service))
  }

  /** The station's list without the value-added services. */
  function EnergyPart(secc: seq<MatchedService>, vas: seq<S.VasOffer>): seq<MatchedService> {
    if |vas| <= |secc| then secc[..|secc| - |vas|] else []
  }

  predicate ListsAgree(evcc: seq<MatchedService>, secc: seq<MatchedService>, offer: Offer) {
    var part := EnergyPart(secc, offer.vas);
    && secc == part + S.OfferedVas(offer.vas)
    && (forall i :: 0 <= i < |part| ==> part[i].service in offer.energy)
    && forall i :: 0 <= i < |evcc| ==> EntryAgrees(evcc[i], part, offer)
  }

  lemma {:induction false} RepeatedOnly(service: Service, supported: seq<Service>, x: Service)
    requires x in E.Repeated(service, supported)
    ensures x == service
  {
    if supported != [] && x in E.Repeated(service, supported[..|supported| - 1]) {
      RepeatedOnly(service, supported[..|supported| - 1], x);
    }
  }

  lemma {:induction false} MatchingIsOffered(energy: seq<Service>, supported: seq<Service>, x: Service)
    requires x in E.Matching(energy, supported)
    ensures x in energy
  {
    var last := |energy| - 1;
    if x in E.Matching(energy[..last], supported) {
      MatchingIsOffered(energy[..last], supported, x);
    } else {
      RepeatedOnly(energy[last], supported, x);
    }
  }

  lemma {:induction false} AllEmpty(matched: seq<MatchedService>, service: Service)
    requires S.Lists(matched, service)
    requires forall i :: 0 <= i < |matched| && matched[i].service == service ==> matched[i].sets == []
    ensures FirstSets(matched, service) == Some([])
  {
    if matched[0].service != service {
      assert forall i :: 0 < i < |matched| ==> matched[i] == matched[1..][i - 1];
      AllEmpty(matched[1..], service);
    }
  }

  lemma EnergyEntryAgrees(x: Service, offer: Offer)
    requires x in offer.energy
    ensures EntryAgrees(MatchedService(x, true, []), S.Offered(offer.energy), offer)
  {
    var part := S.Offered(offer.energy);
    var k :| 0 <= k < |offer.energy| && offer.energy[k] == x;
    assert part[k].service == x;
    AllEmpty(part, x);
  }

  function CarList(found: seq<Service>, vas: seq<S.VasOffer>): (list: seq<MatchedService>)
    ensures |list| == |found| + |vas|
    ensures forall i :: 0 <= i < |found| ==> list[i] == MatchedService(found[i], true, [])
    ensures forall i :: |found| <= i < |list| ==> list[i] == MatchedService(vas[i - |found|].service, false, [])
  {
    E.Entries(found, true) + E.Entries(S.VasServices(vas), false)
  }

  lemma DiscoveryAgrees(found: seq<Service>, offer: Offer)
    requires forall i :: 0 <= i < |found| ==> found[i] in offer.energy
    ensures ListsAgree(CarList(found, offer.vas), S.Offered(offer.energy) + S.OfferedVas(offer.vas), offer)
  {
    var evcc, secc := CarList(found, offer.vas), S.Offered(offer.energy) + S.OfferedVas(offer.vas);
    assert EnergyPart(secc, offer.vas) == S.Offered(offer.energy);
    forall i | 0 <= i < |evcc| ensures EntryAgrees(evcc[i], S.Offered(offer.energy), offer) {
      if i < |found| {
        EnergyEntryAgrees(found[i], offer);
      } else {
        assert offer.vas[i - |found|].service == evcc[i].service;
      }
    }
  }

  /** The first entry of the id is among the energy services when they list it. */
  lemma {:induction false} StoreInFront(part: seq<MatchedService>, tail: seq<MatchedService>, service: Service, sets: seq<ParameterSet>)
    requires S.Lists(part, service)
    ensures S.StoreFirst(part + tail, service, sets) == S.StoreFirst(part, service, sets) + tail
  {
    assert (part + tail)[1..] == part[1..] + tail;
    if part[0].service != service {
      assert forall i :: 0 < i < |part| ==> part[i] == part[1..][i - 1];
      StoreInFront(part[1..], tail, service, sets);
    }
  }

  lemma EntryAgreesAfter(m: MatchedService, part: seq<MatchedService>, offer: Offer, service: Service, sets: seq<ParameterSet>)
    requires EntryAgrees(m, part, offer) && S.Lists(part, service)
    ensures EntryAgrees(E.Stored(m, service, sets), S.StoreFirst(part, service, sets), offer)
  {
    FillFirst(part, service, sets, m.service);
  }

  lemma EnergyIsListed(evcc: seq<MatchedService>, part: seq<MatchedService>, offer: Offer, service: Service)
    requires Energy(evcc, service) && forall i :: 0 <= i < |evcc| ==> EntryAgrees(evcc[i], part, offer)
    ensures S.Lists(part, service)
  {
    var i :| 0 <= i < |evcc| && evcc[i].isEnergy && evcc[i].service == service;
    assert EntryAgrees(evcc[i], part, offer);
  }

  /** Storing a detail on both sides keeps the lists in agreement. */
  lemma DetailAgrees(evcc: seq<MatchedService>, secc: seq<MatchedService>, offer: Offer, service: Service, sets: seq<ParameterSet>)
    requires ListsAgree(evcc, secc, offer) && Energy(evcc, service)
    ensures S.Lists(secc, service)
    ensures ListsAgree(E.StoreAll(evcc, service, sets), S.StoreFirst(secc, service, sets), offer)
  {
    hide EntryAgrees;
    hide S.StoreFirst;
    hide E.StoreAll;
    hide S.OfferedVas;
    hide S.Lists;
    var part, tail := EnergyPart(secc, offer.vas), S.OfferedVas(offer.vas);
    EnergyIsListed(evcc, part, offer, service);
    ListedInFront(part, tail, service);
    StoreInFront(part, tail, service, sets);
    var evcc', part' := E.StoreAll(evcc, service, sets), S.StoreFirst(part, service, sets);
    assert EnergyPart(part' + tail, offer.vas) == part';
    forall i | 0 <= i < |evcc'| ensures EntryAgrees(evcc'[i], part', offer) {
      EntryAgreesAfter(evcc[i], part, offer, service, sets);
    }
  }

  lemma ListedInFront(part: seq<MatchedService>, tail: seq<MatchedService>, service: Service)
    requires S.Lists(part, service)
    ensures S.Lists(part + tail, service)
  {
    var i :| 0 <= i < |part| && part[i].service == service;
    assert (part + tail)[i].service == service;
  }

  lemma PairInFront(part: seq<MatchedService>, tail: seq<MatchedService>, pick: Pick)
    requires S.PairOffered(part, pick)
    ensures S.PairOffered(part + tail, pick)
  {
    var i, k :| 0 <= i < |part| && 0 <= k < |part[i].sets| && part[i].service == pick.service && part[i].sets[k].id == pick.setId;
    assert (part + tail)[i].sets[k].id == pick.setId;
  }

  lemma VasPairOffered(m: MatchedService, part: seq<MatchedService>, offer: Offer)
    requires EntryAgrees(m, part, offer) && !m.isEnergy && NameableOffer(offer.vas)
    ensures S.PairOffered(part + S.OfferedVas(offer.vas), E.VasPick(m))
  {
    if m.sets == [] {
      var k :| 0 <= k < |offer.vas| && offer.vas[k].service == m.service;
      assert HasSetOne(offer.vas[k].sets);
      var l :| 0 <= l < |offer.vas[k].sets| && offer.vas[k].sets[l].id == 1;
      assert (part + S.OfferedVas(offer.vas))[|part| + k].sets[l].id == 1;
    } else {
      ChosenIsFirst(part, m.service, m.sets[0].id, None);
      PairInFront(part, S.OfferedVas(offer.vas), E.VasPick(m));
    }
  }

  lemma {:induction false} SelectedVasOffered(evcc: seq<MatchedService>, part: seq<MatchedService>, offer: Offer, diagnostic: Option<Service>)
    requires NameableOffer(offer.vas) && forall i :: 0 <= i < |evcc| ==> EntryAgrees(evcc[i], part, offer)
    ensures S.AllOffered(part + S.OfferedVas(offer.vas), E.SelectVas(evcc, diagnostic))
  {
    if evcc != [] {
      SelectedVasOffered(evcc[1..], part, offer, diagnostic);
      if !evcc[0].isEnergy {
        VasPairOffered(evcc[0], part, offer);
      }
    }
  }

  /** Value-added services reuse no energy service id. */
  predicate DisjointOffer(offer: Offer) {
    forall k :: 0 <= k < |offer.vas| ==> offer.vas[k].service !in offer.energy
  }

  predicate OffersSetOne(vas: seq<S.VasOffer>, service: Service) {
    exists k :: 0 <= k < |vas| && vas[k].service == service && HasSetOne(vas[k].sets)
  }

  /** Without shared ids the car never fills an entry of a value-added service and always names set 1 for it. */
  lemma VasPairExactly(m: MatchedService, part: seq<MatchedService>, offer: Offer)
    requires EntryAgrees(m, part, offer) && !m.isEnergy && DisjointOffer(offer)
    requires forall i :: 0 <= i < |part| ==> part[i].service in offer.energy
    ensures S.PairOffered(part + S.OfferedVas(offer.vas), E.VasPick(m)) <==> OffersSetOne(offer.vas, m.service)
  {
    var all, pick := part + S.OfferedVas(offer.vas), E.VasPick(m);
    assert pick == Pick(m.service, 1);
    if S.PairOffered(all, pick) {
      var i, j :| 0 <= i < |all| && 0 <= j < |all[i].sets| && all[i].service == pick.service && all[i].sets[j].id == pick.setId;
      var k := i - |part|;
      assert offer.vas[k].service == m.service && HasSetOne(offer.vas[k].sets);
    }
    if OffersSetOne(offer.vas, m.service) {
      var k :| 0 <= k < |offer.vas| && offer.vas[k].service == m.service && HasSetOne(offer.vas[k].sets);
      var l :| 0 <= l < |offer.vas[k].sets| && offer.vas[k].sets[l].id == 1;
      assert all[|part| + k].sets[l].id == 1;
    }
  }

  lemma {:induction false} SelectedVasExactly(evcc: seq<MatchedService>, part: seq<MatchedService>, offer: Offer, diagnostic: Option<Service>)
    requires DisjointOffer(offer) && forall i :: 0 <= i < |evcc| ==> EntryAgrees(evcc[i], part, offer)
    requires forall i :: 0 <= i < |part| ==> part[i].service in offer.energy
    ensures NamesSetOne(E.SelectVas(evcc, diagnostic), part + S.OfferedVas(offer.vas), offer)
  {
    if evcc != [] {
      SelectedVasExactly(evcc[1..], part, offer, diagnostic);
      if !evcc[0].isEnergy {
        VasPairExactly(evcc[0], part, offer);
      }
    }
  }

  /** A named value-added service is one the station knows exactly when it offers it with a set 1. */
  predicate NamesSetOne(picks: seq<Pick>, matched: seq<MatchedService>, offer: Offer) {
    forall k :: 0 <= k < |picks| ==> (S.PairOffered(matched, picks[k]) <==> OffersSetOne(offer.vas, picks[k].service))
  }

  /** The details still to come are those of listed energy services; the first of these will be selected. */
  predicate Pending(e: E.Session, req: Request) {
    && req.ServiceDetailReq? && Energy(e.matched, req.service)
    && (forall i :: 0 <= i < |e.toRequest| ==> Energy(e.matched, e.toRequest[i]))
    && e.matched != [] && e.matched[0].isEnergy
  }

  /** A side's selected service with its parameter set, and its control mode. */
  datatype Choice = Choice(selected: Option<SelectedService>, mode: Option<ControlMode>)

  function CarChoice(e: E.Session): Choice { Choice(e.selected, e.mode) }

  function StationChoice(s: S.Session): Choice { Choice(s.selected, s.mode) }

  /** The car's choice comes from the offer, with its own control mode. */
  predicate Complete(car: Choice, offer: Offer) {
    && car.selected.Some? && car.mode.Some?
    && car.mode == ModeOf(car.selected.value.parameterSet) && car.selected.value.service in offer.energy
  }

  /** The station made the same choice exactly when nothing shadows the car's. */
  predicate Settled(car: Choice, station: Choice, offer: Offer) {
    Complete(car, offer) && (car == station <==> Unshadowed(offer.vas, car.selected.value))
  }

  /** What the station is about to take from the car's selection. */
  predicate Selects(e: E.Session, req: Request, s: S.Session, offer: Offer) {
    && Complete(CarChoice(e), offer) && req.ServiceSelectionReq?
    && req.energy == Pick(e.selected.value.service, e.selected.value.parameterSet.id)
    && S.PairOffered(s.matched, req.energy)
    && (NameableOffer(offer.vas) ==> S.AllOffered(s.matched, req.vas))
    && (DisjointOffer(offer) ==> NamesSetOne(req.vas, s.matched, offer))
    && Settled(CarChoice(e), Choice(S.Chosen(s.matched, req.energy), S.ChosenMode(s.matched, req.energy, s.mode)), offer)
  }

  predicate Starts(req: Request) { req.PowerDeliveryReq? && !req.evProcessing.Ongoing? && !req.progress.Stop? }

  predicate NamesTuple(req: Request, s: S.Session) {
    Starts(req) && s.mode == Some(Scheduled) ==> req.tupleId.Some? && req.tupleId.value in s.offeredTuples
  }

  predicate ModesFit(car: Option<ControlMode>, station: Option<ControlMode>) { station == Some(Scheduled) ==> car == Some(Scheduled) }

  /** The car remembers the tuples of the last finished schedule exchange. */
  predicate Remembers(e: E.Session, s: S.Session) {
    e.offer.tuples == if s.mode == Some(Scheduled) then Some(s.offeredTuples) else None
  }

  predicate AgreedAt(e: E.Session, req: Request, s: S.Session, offer: Offer) {
    if E.Early(e.state) then e.matched == [] && e.toRequest == [] && s.matched == []
    else match e.state
      case ServiceDetail => ListsAgree(e.matched, s.matched, offer) && Pending(e, req)
      case ServiceSelection => Selects(e, req, s, offer)
      case AcParameters => Settled(CarChoice(e), StationChoice(s), offer)
      case DcParameters => Settled(CarChoice(e), StationChoice(s), offer)
      case ScheduleExchange => Settled(CarChoice(e), StationChoice(s), offer)
      case CableCheck(_) => Settled(CarChoice(e), StationChoice(s), offer) && Remembers(e, s)
      case PreCharge(_, _) => Settled(CarChoice(e), StationChoice(s), offer) && Remembers(e, s)
      case PowerDelivery =>
        Settled(CarChoice(e), StationChoice(s), offer) && Remembers(e, s) && (Starts(req) ==> (NamesTuple(req, s) <==> ModesFit(e.mode, s.mode)))
      case AcLoop => Settled(CarChoice(e), StationChoice(s), offer) && Remembers(e, s)
      case DcLoop(_) => Settled(CarChoice(e), StationChoice(s), offer) && Remembers(e, s)
      case _ => true
  }

  predicate Agreed(j: Joint, offer: Offer) { j.Running? ==> AgreedAt(j.evcc, j.pending, j.secc, offer) }

  // One turn in each state.

  lemma EarlyKeepsAgreed(j: Joint, turn: Turn, offer: Offer)
    requires j.Running? && Agreed(j, offer) && E.Early(j.evcc.state) && !j.evcc.state.ServiceDiscovery?
    requires !j.pending.ServiceDiscoveryReq? && S.Passes(j.secc, j.evcc.sid, j.pending)
    requires !j.pending.ServiceDetailReq?
    ensures Agreed(Next(j, turn), offer)
  {
    hide S.Step;
    hide E.Step;
    StationKeepsList(j.secc, j.evcc.sid, j.pending, turn.secc);
    var answer := S.Step(j.secc, j.evcc.sid, j.pending, turn.secc).1;
    if answer.Replied? {
      CarStaysEarly(j.evcc, answer.res, turn.evcc);
    }
  }

  lemma StationKeepsList(s: S.Session, sid: string, req: Request, env: S.Env)
    requires !req.ServiceDiscoveryReq? && !req.ServiceDetailReq?
    ensures S.Step(s, sid, req, env).0.matched == s.matched
  {
  }

  lemma CarStaysEarly(e: E.Session, res: Response, env: E.Env)
    requires E.Early(e.state) && !e.state.ServiceDiscovery?
    ensures var (e', out) := E.Step(e, res, env);
      out.Sent? ==> E.Early(e'.state) && e'.matched == e.matched && e'.toRequest == e.toRequest
  {
  }

  function DiscoveryReaction(e: E.Session, turn: Turn): (E.Session, E.Outcome) {
    E.OnServiceDiscovery(e, turn.secc.renegotiation, turn.secc.energyServices, S.VasServices(turn.secc.vas), turn.evcc)
  }

  function Discovered(s: S.Session, env: S.Env): S.Session {
    s.(state := S.State.ServiceDiscovery(false), matched := S.Offered(env.energyServices) + S.OfferedVas(env.vas))
  }

  lemma DiscoveryExchange(j: Joint, turn: Turn)
    requires j.Running? && LinkedJoint(j) && j.evcc.state.ServiceDiscovery? && j.secc.matched == []
    ensures var (e, out) := DiscoveryReaction(j.evcc, turn);
      Next(j, turn) == JointSessions.After(e, Discovered(j.secc, turn.secc), out)
  {
    hide S.Step;
    hide E.Step;
    hide E.OnServiceDiscovery;
    hide S.Offered;
    hide S.OfferedVas;
    hide S.VasServices;
    hide E.AmongServices;
    LinkedPasses(j.evcc, j.pending, j.secc);
    S.ServiceDiscoveryStep(j.secc, j.evcc.sid, j.pending, turn.secc);
    assert [] + S.Offered(turn.secc.energyServices) + S.OfferedVas(turn.secc.vas)
        == S.Offered(turn.secc.energyServices) + S.OfferedVas(turn.secc.vas);
    E.ServiceDiscoveryStep(j.evcc, S.Step(j.secc, j.evcc.sid, j.pending, turn.secc).1.res, turn.evcc);
  }

  lemma DiscoveredLists(found: seq<Service>, offer: Offer, e: E.Session, out: E.Outcome, s: S.Session)
    requires forall i :: 0 <= i < |found| ==> found[i] in offer.energy
    requires s.matched == S.Offered(offer.energy) + S.OfferedVas(offer.vas)
    requires found == [] ==> e.state.SessionStop? && out.Sent?
    requires found != [] ==> e.state.ServiceDetail? && out == E.Sent(ServiceDetailReq(found[|found| - 1]))
    requires found != [] ==> e.toRequest == found[..|found| - 1] && e.matched == CarList(found, offer.vas)
    ensures Agreed(JointSessions.After(e, s, out), offer)
  {
    if found != [] {
      DiscoveryAgrees(found, offer);
      forall i | 0 <= i < |found| ensures Energy(e.matched, found[i]) {
        assert e.matched[i].isEnergy && e.matched[i].service == found[i];
      }
    }
  }

  lemma NothingYet(j: Joint, offer: Offer)
    requires j.Running? && Agreed(j, offer) && j.evcc.state.ServiceDiscovery?
    ensures j.evcc.matched == [] && j.evcc.toRequest == [] && j.secc.matched == []
  {
  }

  lemma DiscoveryKeepsAgreed(j: Joint, turn: Turn, offer: Offer)
    requires j.Running? && LinkedJoint(j) && Agreed(j, offer)
    requires j.evcc.state.ServiceDiscovery?
    ensures Agreed(Next(j, turn), Offer(turn.secc.energyServices, turn.secc.vas))
  {
    hide Next;
    hide AgreedAt;
    hide E.OnServiceDiscovery;
    hide E.AmongServices;
    NothingYet(j, offer);
    DiscoveryExchange(j, turn);
    var energy := turn.secc.energyServices;
    var found := E.Matching(energy, turn.evcc.supported);
    forall i | 0 <= i < |found| ensures found[i] in energy {
      MatchingIsOffered(energy, turn.evcc.supported, found[i]);
    }
    E.DiscoveryEffect(j.evcc, turn.secc.renegotiation, energy, S.VasServices(turn.secc.vas), turn.evcc);
    var (e, out) := DiscoveryReaction(j.evcc, turn);
    DiscoveredLists(found, Offer(energy, turn.secc.vas), e, out, Discovered(j.secc, turn.secc));
  }

  function Detailed(s: S.Session, service: Service, sets: seq<ParameterSet>): S.Session {
    s.(state := S.State.ServiceDetail(false), matched := S.StoreFirst(s.matched, service, sets))
  }

  lemma DetailExchange(j: Joint, turn: Turn)
    requires j.Running? && LinkedJoint(j) && j.evcc.state.ServiceDetail? && S.Lists(j.secc.matched, j.pending.service)
    ensures var service, sets := j.pending.service, turn.secc.parameterSets;
      var (e, out) := E.AfterDetail(j.evcc.(matched := E.StoreAll(j.evcc.matched, service, sets)), turn.evcc);
      Next(j, turn) == JointSessions.After(e, Detailed(j.secc, service, sets), out)
  {
    hide S.Step;
    hide E.Step;
    hide E.AfterDetail;
    LinkedPasses(j.evcc, j.pending, j.secc);
    S.ServiceDetailStep(j.secc, j.evcc.sid, j.pending, turn.secc);
    E.ServiceDetailStep(j.evcc, S.Step(j.secc, j.evcc.sid, j.pending, turn.secc).1.res, turn.evcc);
  }

  lemma SelectionWillBe(e: E.Session, s: S.Session, offer: Offer, chosen: SelectedService)
    requires ListsAgree(e.matched, s.matched, offer) && e.matched != [] && e.matched[0].isEnergy && e.matched[0].sets != []
    requires chosen == SelectedService(e.matched[0].service, e.matched[0].sets[0]) && ModeOf(chosen.parameterSet).Some?
    ensures var pick := Pick(chosen.service, chosen.parameterSet.id);
      && S.PairOffered(s.matched, pick)
      && (S.Chosen(s.matched, pick) == Some(chosen) && S.ChosenMode(s.matched, pick, s.mode) == ModeOf(chosen.parameterSet) <==>
          Unshadowed(offer.vas, chosen))
  {
    var part, pick := EnergyPart(s.matched, offer.vas), Pick(chosen.service, chosen.parameterSet.id);
    assert EntryAgrees(e.matched[0], part, offer);
    ChosenIsFirst(part, chosen.service, chosen.parameterSet.id, s.mode);
    ChosenBehind(part, offer.vas, pick, s.mode);
    PairInFront(part, S.OfferedVas(offer.vas), pick);
  }

  lemma StoredDetails(e: E.Session, s: S.Session, offer: Offer, env: E.Env)
    requires ListsAgree(e.matched, s.matched, offer) && e.matched != [] && e.matched[0].isEnergy
    requires forall i :: 0 <= i < |e.toRequest| ==> Energy(e.matched, e.toRequest[i])
    ensures var (e', out) := E.AfterDetail(e, env); Agreed(JointSessions.After(e', s, out), offer)
  {
    hide E.AfterDetail;
    hide ListsAgree;
    if e.toRequest != [] {
      E.NextDetailEffect(e, env);
    } else {
      E.LastDetailEffect(e, env);
      SelectionStored(e, s, offer, env);
    }
  }

  lemma SelectionStored(e: E.Session, s: S.Session, offer: Offer, env: E.Env)
    requires ListsAgree(e.matched, s.matched, offer) && e.matched != [] && e.matched[0].isEnergy && e.toRequest == []
    ensures var (e', out) := E.AfterDetail(e, env);
      out.Sent? && out.req.ServiceSelectionReq? ==> Selects(e', out.req, s, offer)
  {
    hide E.AfterDetail;
    E.LastDetailEffect(e, env);
    var (e', out) := E.AfterDetail(e, env);
    if out.Sent? && out.req.ServiceSelectionReq? {
      SelectionWillBe(e, s, offer, e'.selected.value);
      assert EntryAgrees(e.matched[0], EnergyPart(s.matched, offer.vas), offer);
      if NameableOffer(offer.vas) {
        SelectedVasOffered(e.matched, EnergyPart(s.matched, offer.vas), offer, env.diagnostic);
      }
      if DisjointOffer(offer) {
        SelectedVasExactly(e.matched, EnergyPart(s.matched, offer.vas), offer, env.diagnostic);
      }
    }
  }

  lemma DetailKeepsAgreed(j: Joint, turn: Turn, offer: Offer)
    requires j.Running? && LinkedJoint(j) && Agreed(j, offer)
    requires j.evcc.state.ServiceDetail?
    ensures Agreed(Next(j, turn), offer)
  {
    hide Next;
    hide E.AfterDetail;
    var service, sets := j.pending.service, turn.secc.parameterSets;
    DetailAgrees(j.evcc.matched, j.secc.matched, offer, service, sets);
    DetailExchange(j, turn);
    EnergyStays(j.evcc, service, sets);
    StoredDetails(j.evcc.(matched := E.StoreAll(j.evcc.matched, service, sets)), Detailed(j.secc, service, sets), offer, turn.evcc);
  }

  lemma EnergyStays(e: E.Session, service: Service, sets: seq<ParameterSet>)
    ensures forall x :: Energy(e.matched, x) ==> Energy(E.StoreAll(e.matched, service, sets), x)
  {
    forall x | Energy(e.matched, x) ensures Energy(E.StoreAll(e.matched, service, sets), x) {
      var i :| 0 <= i < |e.matched| && e.matched[i].isEnergy && e.matched[i].service == x;
      assert E.StoreAll(e.matched, service, sets)[i].isEnergy;
    }
  }

  lemma SelectionKeepsAgreed(j: Joint, turn: Turn, offer: Offer)
    requires j.Running? && LinkedJoint(j) && Agreed(j, offer)
    requires j.evcc.state.ServiceSelection?
    ensures Agreed(Next(j, turn), offer)
  {
    hide S.Step;
    hide E.Step;
    hide Settled;
    hide S.Chosen;
    hide S.ChosenMode;
    hide S.AllOffered;
    hide S.PairOffered;
    LinkedPasses(j.evcc, j.pending, j.secc);
    S.ServiceSelectionStep(j.secc, j.evcc.sid, j.pending, turn.secc);
    var answer := S.Step(j.secc, j.evcc.sid, j.pending, turn.secc).1;
    if answer.Replied? {
      E.ServiceSelectionStep(j.evcc, answer.res, turn.evcc);
    }
  }

  lemma AcParametersKeepAgreed(j: Joint, turn: Turn, offer: Offer)
    requires j.Running? && LinkedJoint(j) && Agreed(j, offer)
    requires j.evcc.state.AcParameters?
    ensures Agreed(Next(j, turn), offer)
  {
    hide S.Step;
    hide E.Step;
    hide Settled;
    LinkedPasses(j.evcc, j.pending, j.secc);
    S.AcParametersStep(j.secc, j.evcc.sid, j.pending, turn.secc);
    var answer := S.Step(j.secc, j.evcc.sid, j.pending, turn.secc).1;
    if answer.Replied? {
      E.ChargeParametersStep(j.evcc, answer.res, turn.evcc);
    }
  }

  lemma DcParametersKeepAgreed(j: Joint, turn: Turn, offer: Offer)
    requires j.Running? && LinkedJoint(j) && Agreed(j, offer)
    requires j.evcc.state.DcParameters?
    ensures Agreed(Next(j, turn), offer)
  {
    hide S.Step;
    hide E.Step;
    hide Settled;
    LinkedPasses(j.evcc, j.pending, j.secc);
    S.DcParametersStep(j.secc, j.evcc.sid, j.pending, turn.secc);
    var answer := S.Step(j.secc, j.evcc.sid, j.pending, turn.secc).1;
    if answer.Replied? {
      E.ChargeParametersStep(j.evcc, answer.res, turn.evcc);
    }
  }

  /** The tuple of the request built from an offer that the station remembers too. */
  lemma ProfileNames(e: E.Session, offer: E.Offer, env: E.Env, s: S.Session)
    requires offer.tuples == if s.mode == Some(Scheduled) then Some(s.offeredTuples) else None
    ensures var profile := E.BuildProfile(e, offer, env);
      !profile.NoSchedule? && Starts(E.DeliveryRequest(profile)) ==>
        (NamesTuple(E.DeliveryRequest(profile), s) <==> ModesFit(e.mode, s.mode))
  {
  }

  /** The station remembers what it answers to a finished schedule exchange. */
  lemma StationOffers(s: S.Session, sid: string, env: S.Env)
    requires S.Passes(s, sid, ScheduleExchangeReq)
    ensures var (s', answer) := S.Step(s, sid, ScheduleExchangeReq, env);
      && StationChoice(s') == StationChoice(s)
      && (answer.Replied? && !answer.res.failed && !answer.res.body.processing.Ongoing? ==>
           answer.res.body.tuples == if s'.mode == Some(Scheduled) then Some(s'.offeredTuples) else None)
  {
    hide S.Step;
    S.ScheduleExchangeStep(s, sid, ScheduleExchangeReq, env);
  }

  lemma CarSchedules(e: E.Session, processing: Processing, offer: E.Offer, env: E.Env, s: S.Session)
    requires !processing.Ongoing? ==> offer.tuples == if s.mode == Some(Scheduled) then Some(s.offeredTuples) else None
    ensures var (e', out) := E.OnScheduleExchange(e, processing, offer, env);
      out.Sent? ==>
        && CarChoice(e') == CarChoice(e)
        && (e'.state.ScheduleExchange? || ((e'.state.CableCheck? || e'.state.PowerDelivery?) && Remembers(e', s)))
        && (Starts(out.req) ==> (NamesTuple(out.req, s) <==> ModesFit(e.mode, s.mode)))
  {
    hide E.BuildProfile;
    hide E.DeliveryRequest;
    hide NamesTuple;
    hide ModesFit;
    if !processing.Ongoing? {
      ProfileNames(e, offer, env, s);
    }
  }

  lemma ScheduleKeepsAgreed(j: Joint, turn: Turn, offer: Offer)
    requires j.Running? && LinkedJoint(j) && Agreed(j, offer)
    requires j.evcc.state.ScheduleExchange?
    ensures Agreed(Next(j, turn), offer)
  {
    hide S.Step;
    hide E.Step;
    hide E.OnScheduleExchange;
    hide Settled;
    LinkedPasses(j.evcc, j.pending, j.secc);
    StationOffers(j.secc, j.evcc.sid, turn.secc);
    var (secc, answer) := S.Step(j.secc, j.evcc.sid, j.pending, turn.secc);
    if answer.Replied? {
      E.ScheduleExchangeStep(j.evcc, answer.res, turn.evcc);
      if E.Passes(j.evcc, answer.res) {
        var body := answer.res.body;
        CarSchedules(j.evcc, body.processing, E.Offer(body.tuples, body.goToPause), turn.evcc, secc);
      }
    }
  }

  lemma CableCheckKeepsAgreed(j: Joint, turn: Turn, offer: Offer)
    requires j.Running? && LinkedJoint(j) && Agreed(j, offer)
    requires j.evcc.state.CableCheck?
    ensures Agreed(Next(j, turn), offer)
  {
    hide S.Step;
    hide E.Step;
    hide Settled;
    LinkedPasses(j.evcc, j.pending, j.secc);
    StationChecksCable(j.secc, j.evcc.sid, turn.secc);
    E.CableCheckStep(j.evcc, S.Step(j.secc, j.evcc.sid, j.pending, turn.secc).1.res, turn.evcc);
  }

  lemma PreChargeKeepsAgreed(j: Joint, turn: Turn, offer: Offer)
    requires j.Running? && LinkedJoint(j) && Agreed(j, offer)
    requires j.evcc.state.PreCharge?
    ensures Agreed(Next(j, turn), offer)
  {
    hide S.Step;
    hide E.Step;
    hide Settled;
    LinkedPasses(j.evcc, j.pending, j.secc);
    S.PreChargeStep(j.secc, j.evcc.sid, j.pending, turn.secc);
    var answer := S.Step(j.secc, j.evcc.sid, j.pending, turn.secc).1;
    if answer.Replied? {
      E.PreChargeStep(j.evcc, answer.res, turn.evcc);
    }
  }

  lemma RepeatNames(e: E.Session, env: E.Env, s: S.Session)
    requires Remembers(e, s)
    ensures var (e', out) := E.DeliverPower(e, env);
      out.Sent? && Starts(out.req) ==> (NamesTuple(out.req, s) <==> ModesFit(e.mode, s.mode))
  {
    hide E.BuildProfile;
    hide E.DeliveryRequest;
    hide NamesTuple;
    ProfileNames(e, e.offer, env, s);
  }

  lemma CarDelivers(e: E.Session, env: E.Env, s: S.Session)
    requires e.state.PowerDelivery? && Remembers(e, s)
    ensures var (e', out) := E.OnPowerDelivery(e, env);
      out.Sent? ==>
        && CarChoice(e') == CarChoice(e) && Remembers(e', s)
        && (e'.state.PowerDelivery? || e'.state.AcLoop? || e'.state.DcLoop? || e'.state.Welding? || e'.state.SessionStop?)
        && (Starts(out.req) ==> (NamesTuple(out.req, s) <==> ModesFit(e.mode, s.mode)))
  {
    hide E.DeliverPower;
    hide NamesTuple;
    hide ModesFit;
    E.DeliveryOutcome(e, env);
    if e.evProcessing.Ongoing? {
      RepeatNames(e, env, s);
    } else {
      hide E.OnPowerDelivery;
    }
  }

  lemma DeliveryKeepsAgreed(j: Joint, turn: Turn, offer: Offer)
    requires j.Running? && LinkedJoint(j) && Agreed(j, offer)
    requires j.evcc.state.PowerDelivery?
    ensures Agreed(Next(j, turn), offer)
  {
    hide S.Step;
    hide E.Step;
    hide E.OnPowerDelivery;
    hide Settled;
    LinkedPasses(j.evcc, j.pending, j.secc);
    StationDelivers(j.secc, j.evcc.sid, j.pending, turn.secc);
    var (secc, answer) := S.Step(j.secc, j.evcc.sid, j.pending, turn.secc);
    if answer.Replied? {
      E.PowerDeliveryStep(j.evcc, answer.res, turn.evcc);
      CarDelivers(j.evcc, turn.evcc, secc);
    }
  }

  lemma AcLoopKeepsAgreed(j: Joint, turn: Turn, offer: Offer)
    requires j.Running? && LinkedJoint(j) && Agreed(j, offer)
    requires j.evcc.state.AcLoop?
    ensures Agreed(Next(j, turn), offer)
  {
    hide S.Step;
    hide E.Step;
    hide E.OnLoop;
    hide Settled;
    LinkedPasses(j.evcc, j.pending, j.secc);
    S.AcLoopStep(j.secc, j.evcc.sid, j.pending, turn.secc);
    var answer := S.Step(j.secc, j.evcc.sid, j.pending, turn.secc).1;
    if answer.Replied? {
      E.LoopStep(j.evcc, answer.res, turn.evcc);
      if E.Passes(j.evcc, answer.res) {
        E.LoopOutcome(j.evcc, answer.res.body.status, turn.evcc);
      }
    }
  }

  lemma DcLoopKeepsAgreed(j: Joint, turn: Turn, offer: Offer)
    requires j.Running? && LinkedJoint(j) && Agreed(j, offer)
    requires j.evcc.state.DcLoop?
    ensures Agreed(Next(j, turn), offer)
  {
    hide S.Step;
    hide E.Step;
    hide E.OnLoop;
    hide Settled;
    LinkedPasses(j.evcc, j.pending, j.secc);
    S.DcLoopStep(j.secc, j.evcc.sid, j.pending, turn.secc);
    var answer := S.Step(j.secc, j.evcc.sid, j.pending, turn.secc).1;
    if answer.Replied? {
      E.LoopStep(j.evcc, answer.res, turn.evcc);
      if E.Passes(j.evcc, answer.res) {
        E.LoopOutcome(j.evcc, answer.res.body.status, turn.evcc);
      }
    }
  }

  /** After the end of charging nothing is left to agree on. */
  lemma EndKeepsAgreed(j: Joint, turn: Turn, offer: Offer)
    requires j.Running? && (j.evcc.state.Welding? || j.evcc.state.SessionStop? || j.evcc.state.CertificateInstallation?)
    ensures Agreed(Next(j, turn), offer)
  {
    hide S.Step;
    hide E.Step;
    var answer := S.Step(j.secc, j.evcc.sid, j.pending, turn.secc).1;
    if answer.Replied? {
      CarEnds(j.evcc, answer.res, turn.evcc);
    }
  }

  lemma CarEnds(e: E.Session, res: Response, env: E.Env)
    requires e.state.Welding? || e.state.SessionStop? || e.state.CertificateInstallation?
    ensures var (e', out) := E.Step(e, res, env); out.Sent? ==> e'.state.Welding? || e'.state.SessionStop?
  {
  }

  lemma StepKeepsAgreed(j: Joint, turn: Turn, offer: Offer)
    requires LinkedOrLost(j) && Agreed(j, offer)
    ensures Agreed(Next(j, turn), OfferAfter(offer, j, turn))
  {
    hide Next;
    hide Linked;
    hide AgreedAt;
    if j.Over? {
      OverStays(j, turn);
    } else if Lost(j) {
      LostEnds(j, turn);
    } else {
      LinkedKinds(j);
      LinkedPasses(j.evcc, j.pending, j.secc);
      match j.evcc.state {
        case SessionSetup => EarlyKeepsAgreed(j, turn, offer);
        case AuthorizationSetup => EarlyKeepsAgreed(j, turn, offer);
        case CertificateInstallation => EndKeepsAgreed(j, turn, offer);
        case Authorization => EarlyKeepsAgreed(j, turn, offer);
        case ServiceDiscovery => DiscoveryKeepsAgreed(j, turn, offer);
        case ServiceDetail => DetailKeepsAgreed(j, turn, offer);
        case ServiceSelection => SelectionKeepsAgreed(j, turn, offer);
        case AcParameters => AcParametersKeepAgreed(j, turn, offer);
        case DcParameters => DcParametersKeepAgreed(j, turn, offer);
        case ScheduleExchange => ScheduleKeepsAgreed(j, turn, offer);
        case CableCheck(_) => CableCheckKeepsAgreed(j, turn, offer);
        case PreCharge(_, _) => PreChargeKeepsAgreed(j, turn, offer);
        case PowerDelivery => DeliveryKeepsAgreed(j, turn, offer);
        case AcLoop => AcLoopKeepsAgreed(j, turn, offer);
        case DcLoop(_) => DcLoopKeepsAgreed(j, turn, offer);
        case Welding(_, _) => EndKeepsAgreed(j, turn, offer);
        case SessionStop => EndKeepsAgreed(j, turn, offer);
      }
    }
  }

  lemma {:induction false} RunKeepsAgreed(turns: seq<Turn>)
    ensures LinkedOrLost(Run(turns)) && Agreed(Run(turns), OfferOf(turns))
  {
    RunKeepsLink(turns);
    if turns != [] {
      var last := |turns| - 1;
      RunKeepsAgreed(turns[..last]);
      StepKeepsAgreed(Run(turns[..last]), turns[last], OfferOf(turns[..last]));
    }
  }

  // The results for whole runs.

  predicate Preparing(e: E.State) {
    e.AcParameters? || e.DcParameters? || e.ScheduleExchange? || e.CableCheck? || e.PreCharge?
  }

  predicate Charging(e: E.State) { e.PowerDelivery? || e.AcLoop? || e.DcLoop? }

  /** The two sides hold the same service, parameter set and control mode exactly when nothing shadows the car's choice. */
  predicate AgreeUnlessShadowed(j: Joint, offer: Offer) {
    j.Running? && (Preparing(j.evcc.state) || Charging(j.evcc.state)) ==>
      && j.evcc.selected.Some?
      && (CarChoice(j.evcc) == StationChoice(j.secc) <==> Unshadowed(offer.vas, j.evcc.selected.value))
  }

  /** From the accepted selection to the end of charging, in every run. */
  lemma SelectionsAgree(turns: seq<Turn>)
    ensures AgreeUnlessShadowed(Run(turns), OfferOf(turns))
  {
    RunKeepsAgreed(turns);
    AgreedMeans(Run(turns), OfferOf(turns));
  }

  lemma AgreedMeans(j: Joint, offer: Offer)
    requires Agreed(j, offer)
    ensures AgreeUnlessShadowed(j, offer)
    ensures j.Running? && (Preparing(j.evcc.state) || Charging(j.evcc.state)) ==> Complete(CarChoice(j.evcc), offer)
  {
    hide Unshadowed;
  }

  /** So with an offer that shares no ids both sides always agree. */
  lemma DisjointOfferAgrees(turns: seq<Turn>)
    requires DisjointOffer(OfferOf(turns))
    ensures var j := Run(turns); j.Running? && (Preparing(j.evcc.state) || Charging(j.evcc.state)) ==> CarChoice(j.evcc) == StationChoice(j.secc)
  {
    RunKeepsAgreed(turns);
    AgreedMeans(Run(turns), OfferOf(turns));
    var j, offer := Run(turns), OfferOf(turns);
    if j.Running? && (Preparing(j.evcc.state) || Charging(j.evcc.state)) {
      var chosen := j.evcc.selected.value;
      NoShadow(offer.vas, Pick(chosen.service, chosen.parameterSet.id));
    }
  }

  /** Granted for AC and DC services, and only for them. */
  predicate Granted(j: Joint, env: S.Env)
    requires j.Running? && j.pending.ServiceSelectionReq?
  {
    var (secc, answer) := S.Step(j.secc, j.evcc.sid, j.pending, env);
    var service := j.pending.energy.service;
    && answer.Replied?
    && (answer.res.failed <==> !IsAc(service) && !IsDc(service))
    && (secc.state.AcParameters? <==> IsAc(service)) && (secc.state.DcParameters? <==> IsDc(service))
  }

  /** The station refuses the car's selection only when the service is neither an AC nor a DC service. */
  lemma SelectionIsGranted(turns: seq<Turn>, env: S.Env)
    requires NameableOffer(OfferOf(turns).vas)
    ensures Run(turns).Running? && Run(turns).pending.ServiceSelectionReq? ==> Granted(Run(turns), env)
  {
    if Run(turns).Running? && Run(turns).pending.ServiceSelectionReq? {
      RunKeepsAgreed(turns);
      GrantedWhenAgreed(Run(turns), env, OfferOf(turns));
    }
  }

  /**
   With an offer that shares no ids the station refuses the selection exactly when the service is
   neither an AC nor a DC service or the car names a value-added service that is offered without a set 1.
   */
  lemma RefusedExactly(turns: seq<Turn>, env: S.Env)
    requires DisjointOffer(OfferOf(turns))
    ensures var j := Run(turns);
      j.Running? && j.pending.ServiceSelectionReq? ==> Refused(j, env, OfferOf(turns).vas)
  {
    if Run(turns).Running? && Run(turns).pending.ServiceSelectionReq? {
      RunKeepsAgreed(turns);
      RefusedWhenAgreed(Run(turns), env, OfferOf(turns));
    }
  }

  predicate Refused(j: Joint, env: S.Env, vas: seq<S.VasOffer>)
    requires j.Running? && j.pending.ServiceSelectionReq?
  {
    var answer := S.Step(j.secc, j.evcc.sid, j.pending, env).1;
    var service := j.pending.energy.service;
    && answer.Replied?
    && (answer.res.failed <==>
         || (!IsAc(service) && !IsDc(service))
         || exists k :: 0 <= k < |j.pending.vas| && !OffersSetOne(vas, j.pending.vas[k].service))
  }

  lemma RefusedWhenAgreed(j: Joint, env: S.Env, offer: Offer)
    requires j.Running? && LinkedOrLost(j) && Agreed(j, offer) && j.pending.ServiceSelectionReq? && DisjointOffer(offer)
    ensures Refused(j, env, offer.vas)
  {
    hide S.Step;
    hide S.PairOffered;
    hide S.Chosen;
    hide S.ChosenMode;
    hide OffersSetOne;
    LinkedPasses(j.evcc, j.pending, j.secc);
    S.ServiceSelectionStep(j.secc, j.evcc.sid, j.pending, env);
  }

  lemma GrantedWhenAgreed(j: Joint, env: S.Env, offer: Offer)
    requires j.Running? && LinkedOrLost(j) && Agreed(j, offer) && j.pending.ServiceSelectionReq? && NameableOffer(offer.vas)
    ensures Granted(j, env)
  {
    hide S.Step;
    LinkedPasses(j.evcc, j.pending, j.secc);
    S.ServiceSelectionStep(j.secc, j.evcc.sid, j.pending, env);
  }

  /**
   A start of charging in Scheduled mode names a tuple of the station's last finished offer
   exactly when the car is in Scheduled mode too, which it is when nothing shadows its choice.
   */
  lemma StartNamesOfferedTuple(turns: seq<Turn>)
    ensures var j := Run(turns);
      j.Running? && Starts(j.pending) ==>
        && (NamesTuple(j.pending, j.secc) <==> ModesFit(j.evcc.mode, j.secc.mode))
        && j.evcc.selected.Some?
        && (Unshadowed(OfferOf(turns).vas, j.evcc.selected.value) ==> NamesTuple(j.pending, j.secc))
  {
    RunKeepsAgreed(turns);
    if Run(turns).Running? && Starts(Run(turns).pending) {
      DeliveryPending(Run(turns));
    }
  }

  lemma DeliveryPending(j: Joint)
    requires j.Running? && LinkedOrLost(j) && j.pending.PowerDeliveryReq?
    ensures j.evcc.state.PowerDelivery?
  {
  }
}
