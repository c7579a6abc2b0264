/**
 SupportedAppProtocol negotiation: the list the EVCC builds, the entry the SECC picks from
 it, and the entry the EVCC resolves the answer to.
 */
module Sap {
  import opened Options

  /** A protocol by its namespace; V20 namespaces share one prefix, anything else is of no use to either side. */
  datatype Protocol = Din | Iso2 | V20(name: string) | Other(namespace: string)

  datatype Entry = Entry(protocol: Protocol, major: int, minor: int, schemaId: nat, priority: int)

  datatype Answer = Negotiated(schemaId: nat, minorDeviation: bool) | Failed

  /** `list.remove`: the first occurrence only. */
  function RemoveFirst<T(==)>(s: seq<T>, x: T): seq<T> {
    if s == [] then [] else if s[0] == x then s[1..] else [s[0]] + RemoveFirst(s[1..], x)
  }

  function Usable(supported: seq<Protocol>, tls: bool): seq<Protocol> {
    if tls then RemoveFirst(supported, Din) else supported
  }

  function Listed(supported: seq<Protocol>): (entries: seq<Entry>)
    ensures |entries| == |supported|
    ensures forall i :: 0 <= i < |entries| ==>
      entries[i] == Entry(supported[i], if supported[i].Iso2? || supported[i].Din? then 2 else 1, 0, i + 1, i + 1)
  {
    seq(|supported|, i requires 0 <= i < |supported| =>
      Entry(supported[i], if supported[i].Iso2? || supported[i].Din? then 2 else 1, 0, i + 1, i + 1))
  }

  class EvccSession {
    var configured: seq<Protocol>
    var offered: seq<Entry>
    var protocol: Option<Protocol>

    constructor (configured: seq<Protocol>)
      ensures this.configured == configured && offered == [] && protocol == None
    {
      this.configured, offered, protocol := configured, [], None;
    }

    /** Over TLS, DIN SPEC 70121 is taken out of the configured list, for good. */
    method CreateSap(tls: bool)
      modifies this`configured, this`offered
      ensures configured == Usable(old(configured), tls)
      ensures offered == Listed(configured)
    {
      if tls {
        configured := RemoveFirst(configured, Din);
      }
      var entries: seq<Entry> := [];
      var schemaId, priority := 0, 0;
      for i := 0 to |configured|
        invariant schemaId == i && priority == i
        invariant entries == Listed(configured)[..i]
      {
        schemaId := schemaId + 1;
        priority := priority + 1;
        var major := if configured[i].Iso2? || configured[i].Din? then 2 else 1;
        entries := entries + [Entry(configured[i], major, 0, schemaId, priority)];
      }
      offered := entries;
    }

    /** The entry whose schema id was answered decides the protocol; a foreign namespace raises. */
    method ProcessAnswer(answer: Answer) returns (goesOn: bool)
      modifies this`protocol
      ensures goesOn <==> Resolved(offered, answer).Some? && !Resolved(offered, answer).value.Other?
      ensures protocol == if goesOn then Resolved(offered, answer) else old(protocol)
    {
      var i := 0;
      while i < |offered|
        invariant 0 <= i <= |offered| && protocol == old(protocol)
        invariant Resolved(offered, answer) == Resolved(offered[i..], answer)
      {
        if answer.Negotiated? && offered[i].schemaId == answer.schemaId {
          if offered[i].protocol.Other? {
            return false;
          }
          protocol := Some(offered[i].protocol);
          return true;
        }
        assert offered[i..][1..] == offered[i + 1..];
        i := i + 1;
      }
      return false;
    }
  }

  function Resolved(offered: seq<Entry>, answer: Answer): Option<Protocol> {
    if offered == [] || answer.Failed? then None
    else if offered[0].schemaId == answer.schemaId then Some(offered[0].protocol)
    else Resolved(offered[1..], answer)
  }

  predicate Acceptable(e: Entry, supported: seq<Protocol>) {
    e.protocol in supported && match e.protocol
      case Iso2 => e.major == 2
      case Din => e.major == 2
      case V20(_) => e.major == 1
      case Other(_) => false
  }

  /** Major version 2 for ISO 15118-2 and DIN SPEC 70121, 1 for ISO 15118-20. */
  lemma AcceptableVersions(e: Entry, supported: seq<Protocol>)
    ensures Acceptable(e, supported) <==>
      e.protocol in supported && !e.protocol.Other? && e.major == if e.protocol.V20? then 1 else 2
  {
  }

  /** One step of a stable sort by priority: equal priorities keep their order. */
  function Insert(sorted: seq<Entry>, e: Entry): seq<Entry> {
    if sorted == [] || sorted[|sorted| - 1].priority <= e.priority then sorted + [e]
    else Insert(sorted[..|sorted| - 1], e) + [sorted[|sorted| - 1]]
  }

  function SortByPriority(entries: seq<Entry>): seq<Entry> {
    if entries == [] then [] else Insert(SortByPriority(entries[..|entries| - 1]), entries[|entries| - 1])
  }

  predicate Ordered(entries: seq<Entry>) {
    forall i, j :: 0 <= i < j < |entries| ==> entries[i].priority <= entries[j].priority
  }

  function FirstAcceptable(entries: seq<Entry>, supported: seq<Protocol>): Option<Entry> {
    if entries == [] then None
    else if Acceptable(entries[0], supported) then Some(entries[0])
    else FirstAcceptable(entries[1..], supported)
  }

  function AnswerFor(picked: Option<Entry>): Answer {
    if picked.None? then Failed else Negotiated(picked.value.schemaId, picked.value.minor != 0)
  }

  /** The station's choice: sort, take the first acceptable entry, answer with its schema id. */
  method Select(entries: seq<Entry>, supported: seq<Protocol>) returns (picked: Option<Entry>, answer: Answer)
    ensures picked == FirstAcceptable(SortByPriority(entries), supported)
    ensures answer == AnswerFor(picked)
  {
    var sorted := SortByPriority(entries);
    picked := None;
    var i := 0;
    while i < |sorted|
      invariant 0 <= i <= |sorted| && picked == None
      invariant FirstAcceptable(sorted, supported) == FirstAcceptable(sorted[i..], supported)
    {
      var e := sorted[i];
      if e.protocol in supported {
        if e.protocol.Iso2? && e.major == 2 {
          picked := Some(e);
          break;
        }
        if e.protocol.Din? && e.major == 2 {
          picked := Some(e);
          break;
        }
        if e.protocol.V20? && e.major == 1 {
          picked := Some(e);
          break;
        }
      }
      assert sorted[i..][1..] == sorted[i + 1..];
      i := i + 1;
    }
    answer := AnswerFor(picked);
  }

  /** Every element of a list that holds the elements of `a` and `e` is one of them. */
  lemma OneOfThem(list: seq<Entry>, a: seq<Entry>, e: Entry, i: nat)
    requires multiset(list) == multiset(a) + multiset{e} && i < |list|
    ensures list[i] in a || list[i] == e
  {
    assert list[i] in multiset(list);
  }

  lemma OrderedSnoc(sorted: seq<Entry>, e: Entry)
    requires Ordered(sorted) && forall i :: 0 <= i < |sorted| ==> sorted[i].priority <= e.priority
    ensures Ordered(sorted + [e])
  {
  }

  lemma {:induction false} InsertKeeps(sorted: seq<Entry>, e: Entry)
    requires Ordered(sorted)
    ensures Ordered(Insert(sorted, e)) && multiset(Insert(sorted, e)) == multiset(sorted) + multiset{e}
  {
    if sorted != [] && sorted[|sorted| - 1].priority > e.priority {
      var last := |sorted| - 1;
      InsertKeeps(sorted[..last], e);
      var inner := Insert(sorted[..last], e);
      assert sorted == sorted[..last] + [sorted[last]];
      forall i | 0 <= i < |inner| ensures inner[i].priority <= sorted[last].priority {
        OneOfThem(inner, sorted[..last], e, i);
      }
      OrderedSnoc(inner, sorted[last]);
    }
  }

  lemma {:induction false} SortKeeps(entries: seq<Entry>)
    ensures Ordered(SortByPriority(entries)) && multiset(SortByPriority(entries)) == multiset(entries)
  {
    if entries != [] {
      var last := |entries| - 1;
      SortKeeps(entries[..last]);
      InsertKeeps(SortByPriority(entries[..last]), entries[last]);
      assert entries == entries[..last] + [entries[last]];
    }
  }

  function Better(best: Option<Entry>, e: Entry, supported: seq<Protocol>): Option<Entry> {
    if !Acceptable(e, supported) then best
    else if best.None? || e.priority < best.value.priority then Some(e)
    else best
  }

  lemma {:induction false} FirstOfConcat(a: seq<Entry>, b: seq<Entry>, supported: seq<Protocol>)
    ensures FirstAcceptable(a + b, supported) ==
      if FirstAcceptable(a, supported).Some? then FirstAcceptable(a, supported) else FirstAcceptable(b, supported)
  {
    if a == [] {
      assert a + b == b;
    } else {
      assert (a + b)[1..] == a[1..] + b;
      FirstOfConcat(a[1..], b, supported);
    }
  }

  lemma {:induction false} FirstIsMember(entries: seq<Entry>, supported: seq<Protocol>)
    ensures var first := FirstAcceptable(entries, supported);
      first.Some? ==> first.value in entries && Acceptable(first.value, supported)
    ensures FirstAcceptable(entries, supported).None? ==> forall i :: 0 <= i < |entries| ==> !Acceptable(entries[i], supported)
  {
    if entries != [] {
      FirstIsMember(entries[1..], supported);
      assert forall i :: 0 < i < |entries| ==> entries[i] == entries[1..][i - 1];
    }
  }

  lemma {:induction false} FirstAfterInsert(sorted: seq<Entry>, e: Entry, supported: seq<Protocol>)
    requires Ordered(sorted)
    ensures FirstAcceptable(Insert(sorted, e), supported) == Better(FirstAcceptable(sorted, supported), e, supported)
  {
    FirstIsMember(sorted, supported);
    if sorted == [] || sorted[|sorted| - 1].priority <= e.priority {
      FirstOfConcat(sorted, [e], supported);
    } else {
      var init, last := sorted[..|sorted| - 1], sorted[|sorted| - 1];
      FirstAfterInsert(init, e, supported);
      FirstOfConcat(Insert(init, e), [last], supported);
      FirstOfConcat(init, [last], supported);
      assert sorted == init + [last];
    }
  }

  predicate IsBest(entries: seq<Entry>, supported: seq<Protocol>, best: nat) {
    && best < |entries| && Acceptable(entries[best], supported)
    && (forall j :: 0 <= j < |entries| && Acceptable(entries[j], supported) ==> entries[best].priority <= entries[j].priority)
    && (forall j :: 0 <= j < best && Acceptable(entries[j], supported) ==> entries[best].priority < entries[j].priority)
  }

  lemma LaterEntry(entries: seq<Entry>, supported: seq<Protocol>, best: nat)
    requires entries != [] && IsBest(entries[..|entries| - 1], supported, best)
    ensures var last := |entries| - 1;
      IsBest(entries, supported,
             if Acceptable(entries[last], supported) && entries[last].priority < entries[best].priority then last else best)
  {
    var last := |entries| - 1;
    assert forall i :: 0 <= i < last ==> entries[..last][i] == entries[i];
  }

  lemma OnlyEntry(entries: seq<Entry>, supported: seq<Protocol>)
    requires entries != [] && Acceptable(entries[|entries| - 1], supported)
    requires forall i :: 0 <= i < |entries| - 1 ==> !Acceptable(entries[i], supported)
    ensures IsBest(entries, supported, |entries| - 1)
  {
  }

  lemma SortSnoc(entries: seq<Entry>)
    requires entries != []
    ensures SortByPriority(entries) == Insert(SortByPriority(entries[..|entries| - 1]), entries[|entries| - 1])
  {
  }

  /** The answer names the picked entry, and reports a minor deviation exactly when its minor version is not 0. */
  lemma AnswerNamesEntry(picked: Option<Entry>)
    ensures AnswerFor(picked).Failed? <==> picked.None?
    ensures picked.Some? ==> AnswerFor(picked).schemaId == picked.value.schemaId
    ensures picked.Some? ==> (AnswerFor(picked).minorDeviation <==> picked.value.minor != 0)
  {
  }

  /**
   The station picks the acceptable entry with the lowest priority number, the earlier one
   among equals, and fails exactly when no entry is acceptable. The answer names its schema id
   and reports a minor deviation exactly when its minor version is not 0.
   */
  lemma {:induction false} SelectionIsBest(entries: seq<Entry>, supported: seq<Protocol>) returns (best: nat)
    ensures var picked := FirstAcceptable(SortByPriority(entries), supported);
      && (picked.Some? ==> IsBest(entries, supported, best) && picked.value == entries[best])
      && (picked.None? <==> forall i :: 0 <= i < |entries| ==> !Acceptable(entries[i], supported))
      && (AnswerFor(picked).Failed? <==> picked.None?)
      && (picked.Some? ==> AnswerFor(picked).schemaId == entries[best].schemaId
                           && (AnswerFor(picked).minorDeviation <==> entries[best].minor != 0))
  {
    best := 0;
    hide AnswerFor;
    if entries != [] {
      var last := |entries| - 1;
      SortSnoc(entries);
      hide SortByPriority;
      hide Insert;
      hide FirstAcceptable;
      var before := SelectionIsBest(entries[..last], supported);
      var earlier := FirstAcceptable(SortByPriority(entries[..last]), supported);
      SortKeeps(entries[..last]);
      FirstAfterInsert(SortByPriority(entries[..last]), entries[last], supported);
      if earlier.Some? {
        LaterEntry(entries, supported, before);
        best := if Acceptable(entries[last], supported) && entries[last].priority < entries[before].priority then last else before;
        assert Acceptable(entries[best], supported);
      } else {
        assert forall i :: 0 <= i < last ==> entries[..last][i] == entries[i];
        if Acceptable(entries[last], supported) {
          OnlyEntry(entries, supported);
          best := last;
        }
      }
    }
    AnswerNamesEntry(FirstAcceptable(SortByPriority(entries), supported));
  }

  lemma {:induction false} ResolvedById(offered: seq<Entry>, k: nat, answer: Answer)
    requires k < |offered| && answer.Negotiated? && answer.schemaId == offered[k].schemaId
    requires forall j :: 0 <= j < k ==> offered[j].schemaId != answer.schemaId
    ensures Resolved(offered, answer) == Some(offered[k].protocol)
  {
    if k > 0 {
      ResolvedById(offered[1..], k - 1, answer);
    }
  }

  /** The most preferred protocol of the car that the station supports and both know how to speak. */
  predicate Preferred(usable: seq<Protocol>, supported: seq<Protocol>, k: nat) {
    && k < |usable| && usable[k] in supported && !usable[k].Other?
    && forall j :: 0 <= j < k ==> usable[j] !in supported || usable[j].Other?
  }

  /**
   Car and station end on the same protocol, the first one on the car's list that the station
   supports too, and the negotiation fails exactly when there is none.
   */
  lemma NegotiationAgrees(configured: seq<Protocol>, tls: bool, supported: seq<Protocol>) returns (k: nat)
    ensures var usable := Usable(configured, tls);
      var picked := FirstAcceptable(SortByPriority(Listed(usable)), supported);
      && (picked.Some? ==>
           && Preferred(usable, supported, k) && picked.value.protocol == usable[k]
           && Resolved(Listed(usable), AnswerFor(picked)) == Some(usable[k]) && !AnswerFor(picked).minorDeviation)
      && (picked.None? <==> forall i :: 0 <= i < |usable| ==> usable[i] !in supported || usable[i].Other?)
      && (picked.None? ==> Resolved(Listed(usable), AnswerFor(picked)) == None)
  {
    var usable := Usable(configured, tls);
    var entries := Listed(usable);
    k := SelectionIsBest(entries, supported);
    var picked := FirstAcceptable(SortByPriority(entries), supported);
    assert forall i :: 0 <= i < |usable| ==> (Acceptable(entries[i], supported) <==> usable[i] in supported && !usable[i].Other?);
    if picked.Some? {
      ResolvedById(entries, k, AnswerFor(picked));
    } else if |usable| > 0 {
      assert Resolved(entries, Failed) == None;
    }
  }

  lemma {:induction false} RemovedOnce(supported: seq<Protocol>)
    ensures Din in RemoveFirst(supported, Din) <==> multiset(supported)[Din] > 1
  {
    if supported != [] {
      assert supported == [supported[0]] + supported[1..];
      RemovedOnce(supported[1..]);
      if supported[0] != Din {
        assert RemoveFirst(supported, Din) == [supported[0]] + RemoveFirst(supported[1..], Din);
      } else {
        assert Din in supported[1..] <==> Din in multiset(supported[1..]);
      }
    }
  }

  /** Over TLS the first DIN entry is left out and everything else keeps its order; without TLS nothing is left out. */
  lemma {:induction false} UsableProtocols(before: seq<Protocol>, after: seq<Protocol>)
    requires Din !in before
    ensures Usable(before + [Din] + after, true) == before + after && Usable(before, true) == before
    ensures Usable(before + [Din] + after, false) == before + [Din] + after
  {
    if before == [] {
      assert [] + [Din] + after == [Din] + after;
    } else {
      UsableProtocols(before[1..], after);
      assert (before + [Din] + after)[1..] == before[1..] + [Din] + after;
      assert before + after == [before[0]] + (before[1..] + after);
    }
  }

  /** A TLS session can end on DIN SPEC 70121 with some station exactly when the car lists it more than once. */
  lemma TlsAndDin(configured: seq<Protocol>)
    ensures (exists e :: e in Listed(Usable(configured, true)) && Acceptable(e, [Din])) <==> multiset(configured)[Din] > 1
  {
    RemovedOnce(configured);
    var usable := Usable(configured, true);
    if Din in usable {
      var i :| 0 <= i < |usable| && usable[i] == Din;
      assert Listed(usable)[i] in Listed(usable) && Acceptable(Listed(usable)[i], [Din]);
    }
  }
}
