/**
 The charging schedule of ISO 15118-2: the entries the SECC hands out, the profile the EVCC
 makes of them, and what power either of them denotes at a given time.
 */
module Schedule {
  import opened Options

  const Day: int := 86400

  /** An entry without a duration lasts until the next one starts. */
  datatype Entry = Entry(start: int, duration: Option<int>, power: int)

  datatype Tariff = Tariff(level: int, start: int, duration: Option<int>)

  datatype Point = Point(start: int, power: int)

  /** The power limit at time t: that of the last entry that has started, unless its duration is over. */
  function PowerAt(entries: seq<Entry>, t: int): int {
    if entries == [] then 0
    else
      var last := entries[|entries| - 1];
      if last.start > t then PowerAt(entries[..|entries| - 1], t)
      else if last.duration.Some? && t >= last.start + last.duration.value then 0
      else last.power
  }

  /** The profile's power at time t: that of its last point that has been reached. */
  function ProfileAt(points: seq<Point>, t: int): int {
    if points == [] then 0
    else if points[|points| - 1].start <= t then points[|points| - 1].power
    else ProfileAt(points[..|points| - 1], t)
  }

  /** The SECC's entries from `start` on: whole days without a duration, then the rest of the time with one. */
  function Chunks(start: int, remaining: int, power: int): seq<Entry>
    decreases remaining
  {
    if remaining <= 0 then []
    else [Entry(start, if remaining <= Day then Some(remaining) else None, power)] + Chunks(start + Day, remaining - Day, power)
  }

  function Levels(entries: seq<Entry>, first: int): (tariffs: seq<Tariff>)
    ensures |tariffs| == |entries|
    ensures forall i :: 0 <= i < |entries| ==> tariffs[i] == Tariff(first + i, entries[i].start, entries[i].duration)
  {
    seq(|entries|, i requires 0 <= i < |entries| => Tariff(first + i, entries[i].start, entries[i].duration))
  }

  /** No departure time stands for a day, as [V2G2-304] asks for. */
  function Departure(departureTime: int): int { if departureTime == 0 then Day else departureTime }

  method GetSaScheduleList(departureTime: int, ratedPower: int) returns (entries: seq<Entry>, tariffs: seq<Tariff>)
    ensures entries == Chunks(0, Departure(departureTime), ratedPower)
    ensures tariffs == Levels(entries, 1)
  {
    var departure := departureTime;
    if departure == 0 {
      departure := Day;
    }
    entries, tariffs := [], [];
    var remaining, counter, start := departure, 1, 0;
    while remaining > 0
      invariant entries + Chunks(start, remaining, ratedPower) == Chunks(0, departure, ratedPower)
      invariant counter == |entries| + 1 && tariffs == Levels(entries, 1)
    {
      var entry, tariff := Entry(start, None, ratedPower), Tariff(counter, start, None);
      if remaining <= Day {
        entry := Entry(start, Some(remaining), ratedPower);
        tariff := Tariff(counter, start, Some(remaining));
      }
      ghost var before := entries;
      assert Chunks(start, remaining, ratedPower) == [entry] + Chunks(start + Day, remaining - Day, ratedPower);
      assert before + ([entry] + Chunks(start + Day, remaining - Day, ratedPower))
          == before + [entry] + Chunks(start + Day, remaining - Day, ratedPower);
      remaining := remaining - Day;
      start := start + Day;
      counter := counter + 1;
      entries := entries + [entry];
      tariffs := tariffs + [tariff];
    }
  }

  /** An entry becomes a point at its start and, if its duration is neither absent nor zero, a zero point at its end. */
  function Points(e: Entry): seq<Point> {
    [Point(e.start, e.power)] + if e.duration.Some? && e.duration.value != 0 then [Point(e.start + e.duration.value, 0)] else []
  }

  function Profile(entries: seq<Entry>): seq<Point> {
    if entries == [] then [] else Profile(entries[..|entries| - 1]) + Points(entries[|entries| - 1])
  }

  datatype ScheduleTuple = ScheduleTuple(id: int, entries: seq<Entry>)

  /** Takes the last schedule off the list; an empty list raises. */
  method ProcessSaSchedules(schedules: seq<ScheduleTuple>) returns (rest: seq<ScheduleTuple>, id: Option<int>, profile: seq<Point>)
    ensures schedules == [] ==> id == None
    ensures schedules != [] ==>
      var last := |schedules| - 1;
      rest == schedules[..last] && id == Some(schedules[last].id) && profile == Profile(schedules[last].entries)
  {
    rest, id, profile := schedules, None, [];
    if schedules == [] {
      return;
    }
    var schedule := schedules[|schedules| - 1];
    rest := schedules[..|schedules| - 1];
    var entries := schedule.entries;
    for i := 0 to |entries|
      invariant profile == Profile(entries[..i])
    {
      assert entries[..i + 1][..i] == entries[..i];
      profile := profile + [Point(entries[i].start, entries[i].power)];
      if entries[i].duration.Some? && entries[i].duration.value != 0 {
        profile := profile + [Point(entries[i].start + entries[i].duration.value, 0)];
      }
    }
    assert entries[..|entries|] == entries;
    id := Some(schedule.id);
  }

  // The SECC's entries tile the time up to the departure.

  predicate Covers(entries: seq<Entry>, i: nat, t: int)
    requires i < |entries|
  {
    && entries[i].start <= t
    && (entries[i].duration.Some? ==> t < entries[i].start + entries[i].duration.value)
    && (entries[i].duration.None? && i + 1 < |entries| ==> t < entries[i + 1].start)
  }

  lemma {:induction false} ChunkAt(start: int, remaining: int, power: int, i: nat)
    requires i < |Chunks(start, remaining, power)|
    ensures var entries := Chunks(start, remaining, power);
      && i * Day < remaining
      && entries[i] == Entry(start + i * Day, if remaining - i * Day <= Day then Some(remaining - i * Day) else None, power)
      && (i + 1 < |entries| <==> remaining - i * Day > Day)
    decreases i
  {
    if i > 0 {
      ChunkAt(start + Day, remaining - Day, power, i - 1);
    }
  }

  lemma {:induction false} ChunkCount(start: int, remaining: int, power: int)
    requires remaining > 0
    ensures var n := |Chunks(start, remaining, power)|; n > 0 && (n - 1) * Day < remaining <= n * Day
    decreases remaining
  {
    if remaining > Day {
      ChunkCount(start + Day, remaining - Day, power);
    }
  }

  /** For every departure time, and for one whole day without one, each instant before it is covered by exactly the entry of its day, and no other instant by any. */
  lemma EntriesTile(departureTime: int, power: int, t: int)
    ensures var entries, departure := Chunks(0, Departure(departureTime), power), if departureTime == 0 then 86400 else departureTime;
      && (0 <= t < departure ==> t / 86400 < |entries|)
      && forall i :: 0 <= i < |entries| ==> (Covers(entries, i, t) <==> 0 <= t < departure && i == t / 86400)
  {
    var departure := Departure(departureTime);
    var entries := Chunks(0, departure, power);
    if departure > 0 {
      ChunkCount(0, departure, power);
    }
    forall i | 0 <= i < |entries|
      ensures Covers(entries, i, t) <==> 0 <= t < departure && i == t / Day
    {
      ChunkAt(0, departure, power, i);
      if i + 1 < |entries| {
        ChunkAt(0, departure, power, i + 1);
      }
    }
  }

  lemma {:induction false} ChunkPower(start: int, remaining: int, power: int, t: int)
    requires remaining > 0
    ensures PowerAt(Chunks(start, remaining, power), t) == if start <= t < start + remaining then power else 0
    decreases remaining
  {
    var entries := Chunks(start, remaining, power);
    if remaining <= Day {
      assert Chunks(start + Day, remaining - Day, power) == [];
      assert entries == [Entry(start, Some(remaining), power)];
      assert entries[..0] == [];
    } else {
      ChunkPower(start + Day, remaining - Day, power, t);
      ChunkCount(start + Day, remaining - Day, power);
      EarlierEntry(Entry(start, None, power), Chunks(start + Day, remaining - Day, power), t);
      ChunkAt(start + Day, remaining - Day, power, 0);
      StartedWhenFirst(start + Day, remaining - Day, power, t);
    }
  }

  predicate Started(entries: seq<Entry>, t: int) { exists i :: 0 <= i < |entries| && entries[i].start <= t }

  lemma {:induction false} EarlierEntry(e: Entry, entries: seq<Entry>, t: int)
    ensures PowerAt([e] + entries, t) == if Started(entries, t) then PowerAt(entries, t) else PowerAt([e], t)
  {
    if entries == [] {
      assert [e] + entries == [e];
    } else {
      var n := |entries| - 1;
      EarlierEntry(e, entries[..n], t);
      assert ([e] + entries)[..|entries|] == [e] + entries[..n];
      if Started(entries[..n], t) {
        var i :| 0 <= i < n && entries[..n][i].start <= t;
        assert entries[i].start <= t;
      }
      if entries[n].start > t && Started(entries, t) {
        var i :| 0 <= i < |entries| && entries[i].start <= t;
        assert entries[..n][i].start <= t;
      }
    }
  }

  lemma StartedWhenFirst(start: int, remaining: int, power: int, t: int)
    requires remaining > 0
    ensures Started(Chunks(start, remaining, power), t) <==> start <= t
  {
    var entries := Chunks(start, remaining, power);
    ChunkCount(start, remaining, power);
    ChunkAt(start, remaining, power, 0);
    forall i | 0 <= i < |entries| ensures entries[i].start >= start {
      ChunkAt(start, remaining, power, i);
    }
  }

  // The EVCC's profile means the same.

  predicate Sorted(entries: seq<Entry>) {
    forall i, j :: 0 <= i < j < |entries| ==> entries[i].start <= entries[j].start
  }

  /** An entry of duration zero does no harm when it has no power or is replaced at the very moment it starts. */
  predicate Harmless(entries: seq<Entry>, i: nat)
    requires i < |entries|
  {
    entries[i].duration == Some(0) ==> entries[i].power == 0 || (i + 1 < |entries| && entries[i + 1].start == entries[i].start)
  }

  predicate NonNegative(entries: seq<Entry>) {
    forall i :: 0 <= i < |entries| && entries[i].duration.Some? ==> entries[i].duration.value >= 0
  }

  /** What the last started entry contributes. */
  function EntryPower(e: Entry, t: int): int {
    if e.duration.Some? && t >= e.start + e.duration.value then 0 else e.power
  }

  function PointsPower(e: Entry, t: int): int {
    if e.duration.Some? && e.duration.value != 0 && t >= e.start + e.duration.value then 0 else e.power
  }

  predicate LastStarted(entries: seq<Entry>, k: nat, t: int) {
    k < |entries| && entries[k].start <= t && forall i :: k < i < |entries| ==> entries[i].start > t
  }

  lemma {:induction false} AtLastStarted(entries: seq<Entry>, k: nat, t: int)
    requires NonNegative(entries) && LastStarted(entries, k, t)
    ensures PowerAt(entries, t) == EntryPower(entries[k], t)
    ensures ProfileAt(Profile(entries), t) == PointsPower(entries[k], t)
  {
    var n := |entries| - 1;
    var before := Profile(entries[..n]);
    var last := entries[n];
    if last.duration.Some? && last.duration.value != 0 {
      var points := before + [Point(last.start, last.power)] + [Point(last.start + last.duration.value, 0)];
      assert Profile(entries) == points;
      assert points[..|points| - 1] == before + [Point(last.start, last.power)];
      assert (before + [Point(last.start, last.power)])[..|before|] == before;
    } else {
      assert Profile(entries) == before + [Point(last.start, last.power)];
      assert (before + [Point(last.start, last.power)])[..|before|] == before;
    }
    if k < n {
      AtLastStarted(entries[..n], k, t);
    }
  }

  lemma {:induction false} NothingStarted(entries: seq<Entry>, t: int)
    requires NonNegative(entries) && forall i :: 0 <= i < |entries| ==> entries[i].start > t
    ensures PowerAt(entries, t) == 0 && ProfileAt(Profile(entries), t) == 0
  {
    if entries != [] {
      var n := |entries| - 1;
      NothingStarted(entries[..n], t);
      var before := Profile(entries[..n]);
      var last := entries[n];
      if last.duration.Some? && last.duration.value != 0 {
        var points := before + [Point(last.start, last.power)] + [Point(last.start + last.duration.value, 0)];
        assert Profile(entries) == points;
        assert points[..|points| - 1] == before + [Point(last.start, last.power)];
        assert (before + [Point(last.start, last.power)])[..|before|] == before;
      } else {
        assert Profile(entries) == before + [Point(last.start, last.power)];
        assert (before + [Point(last.start, last.power)])[..|before|] == before;
      }
    }
  }

  lemma {:induction false} FindLastStarted(entries: seq<Entry>, t: int) returns (k: nat)
    requires Started(entries, t)
    ensures LastStarted(entries, k, t)
  {
    k := |entries| - 1;
    while entries[k].start > t
      invariant k < |entries| && forall i :: k < i < |entries| ==> entries[i].start > t
      decreases k
    {
      var i :| 0 <= i < |entries| && entries[i].start <= t;
      assert i <= k && i != k;
      k := k - 1;
    }
  }

  ghost predicate SameMeaning(entries: seq<Entry>) {
    forall t :: PowerAt(entries, t) == ProfileAt(Profile(entries), t)
  }

  /**
   For any schedule sorted by start time the car's profile denotes the same power at every
   instant exactly when its entries of duration zero are harmless.
   */
  lemma MeaningPreservedExactly(entries: seq<Entry>)
    requires Sorted(entries) && NonNegative(entries)
    ensures SameMeaning(entries) <==> forall i :: 0 <= i < |entries| ==> Harmless(entries, i)
  {
    if forall i :: 0 <= i < |entries| ==> Harmless(entries, i) {
      forall t ensures PowerAt(entries, t) == ProfileAt(Profile(entries), t) {
        if Started(entries, t) {
          var k := FindLastStarted(entries, t);
          AtLastStarted(entries, k, t);
          assert Harmless(entries, k);
        } else {
          NothingStarted(entries, t);
        }
      }
    } else {
      var i :| 0 <= i < |entries| && !Harmless(entries, i);
      var t := entries[i].start;
      assert LastStarted(entries, i, t);
      AtLastStarted(entries, i, t);
      assert PowerAt(entries, t) != ProfileAt(Profile(entries), t);
    }
  }

  /** The SECC's own schedules: the car's profile has the rated power up to the departure and zero outside. */
  lemma OwnScheduleIsPreserved(departureTime: int, power: int, t: int)
    ensures ProfileAt(Profile(Chunks(0, Departure(departureTime), power)), t)
         == if 0 <= t < Departure(departureTime) then power else 0
  {
    var departure := Departure(departureTime);
    var entries := Chunks(0, departure, power);
    forall i | 0 <= i < |entries|
      ensures entries[i].start == i * Day && (entries[i].duration.Some? ==> entries[i].duration.value > 0)
    {
      ChunkAt(0, departure, power, i);
    }
    MeaningPreservedExactly(entries);
    if departure > 0 {
      ChunkPower(0, departure, power, t);
    }
  }
}
