/**
 * The dashboard's figures over a date window: the trips inside the window,
 * the totals and counts over them, and the per-job-type and top-client
 * groupings drawn as charts.
 */
module Dashboard {
  import opened Types
  import Text
  import Lists
  import Sorting

  /** `t.date >= startDate && t.date <= endDate`, compared as strings. */
  predicate InWindow(t: Trip, startDate: string, endDate: string)
  {
    Text.LexLe(startDate, t.date) && Text.LexLe(t.date, endDate)
  }

  /** `filteredTrips`. */
  function FilteredTrips(trips: seq<Trip>, startDate: string, endDate: string): seq<Trip>
  {
    Lists.Filter(trips, t => InWindow(t, startDate, endDate))
  }

  /**
   * The window keeps exactly the trips dated inside it, and keeps them in
   * their original order: filtering a concatenation filters each part.
   */
  lemma FilteredTripsFacts(trips: seq<Trip>, more: seq<Trip>, startDate: string, endDate: string)
    ensures forall t :: t in FilteredTrips(trips, startDate, endDate) <==> t in trips && InWindow(t, startDate, endDate)
    ensures FilteredTrips(trips + more, startDate, endDate) ==
            FilteredTrips(trips, startDate, endDate) + FilteredTrips(more, startDate, endDate)
  {
    Lists.FilterConcat(trips, more, t => InWindow(t, startDate, endDate));
  }

  /** A window whose start is after its end holds no trip. */
  lemma InvertedWindowIsEmpty(trips: seq<Trip>, startDate: string, endDate: string)
    requires Text.LexLess(endDate, startDate)
    ensures FilteredTrips(trips, startDate, endDate) == []
  {
    var r := FilteredTrips(trips, startDate, endDate);
    if r != [] {
      var t := r[0];
      assert t in r;
      assert InWindow(t, startDate, endDate);
      Text.LexLeTransitive(startDate, t.date, endDate);
      assert false;
    }
  }

  /** The `stats` card figures. */
  datatype Stats = Stats(totalCost: real, totalKm: real, weekendTrips: nat, count: nat)

  function TripCost(t: Trip): real { t.totalCost }
  function TripKm(t: Trip): real { t.distanceKm }
  predicate OnWeekend(t: Trip) { t.isWeekend }

  /**
   * `stats`: one pass accumulating cost, kilometres and weekend trips. The
   * totals are the sums over the trips, the weekend count is the number of
   * weekend trips, never more than all of them.
   */
  method ComputeStats(filtered: seq<Trip>) returns (s: Stats)
    ensures s.totalCost == Lists.Sum(filtered, TripCost)
    ensures s.totalKm == Lists.Sum(filtered, TripKm)
    ensures s.weekendTrips == |Lists.Filter(filtered, OnWeekend)|
    ensures s.count == |filtered|
    ensures s.weekendTrips <= s.count
  {
    var totalCost, totalKm := 0.0, 0.0;
    var weekendTrips: nat := 0;
    var i := 0;
    while i < |filtered|
      invariant 0 <= i <= |filtered|
      invariant totalCost == Lists.Sum(filtered[..i], TripCost)
      invariant totalKm == Lists.Sum(filtered[..i], TripKm)
      invariant weekendTrips == |Lists.Filter(filtered[..i], OnWeekend)|
      invariant weekendTrips <= i
    {
      var t := filtered[i];
      assert filtered[..i + 1][..i] == filtered[..i];
      totalCost := totalCost + t.totalCost;
      totalKm := totalKm + t.distanceKm;
      if t.isWeekend {
        weekendTrips := weekendTrips + 1;
      }
      i := i + 1;
    }
    assert filtered[..i] == filtered;
    s := Stats(totalCost, totalKm, weekendTrips, |filtered|);
  }

  /** One bar or slice of a chart: a key and the number of trips under it. */
  datatype Entry = Entry(name: string, count: nat)

  /**
   * The distinct keys in order of first occurrence, which is the order
   * `Object.keys` lists a record filled from `keys`.
   */
  function FirstOccurrences(keys: seq<string>): (r: seq<string>)
    ensures forall k :: k in r <==> k in keys
    ensures Lists.NoDuplicates(r)
  {
    if keys == [] then [] else
      var rest := FirstOccurrences(keys[..|keys| - 1]);
      var k := keys[|keys| - 1];
      assert forall x :: x in keys <==> x in keys[..|keys| - 1] || x == k;
      if k in rest then rest else rest + [k]
  }

  /**
   * `grouped[key] = (grouped[key] || 0) + 1` for every key in turn: the map
   * counts the occurrences of each key, and the order its keys were first
   * inserted is recorded alongside.
   */
  method GroupCounts(keys: seq<string>) returns (grouped: map<string, nat>, order: seq<string>)
    ensures order == FirstOccurrences(keys)
    ensures forall k :: k in grouped <==> k in keys
    ensures forall k :: k in grouped ==> grouped[k] == multiset(keys)[k]
  {
    grouped, order := map[], [];
    var i := 0;
    while i < |keys|
      invariant 0 <= i <= |keys|
      invariant order == FirstOccurrences(keys[..i])
      invariant CountsOf(grouped, keys[..i])
    {
      var key := keys[i];
      PrefixStep(keys, i);
      CountsStep(grouped, keys, i);
      if key !in grouped {
        order := order + [key];
      }
      grouped := grouped[key := (if key in grouped then grouped[key] else 0) + 1];
      i := i + 1;
    }
    assert keys[..i] == keys;
  }

  /** The map holds exactly the keys seen, each with its number of occurrences. */
  ghost predicate CountsOf(grouped: map<string, nat>, keys: seq<string>)
  {
    && (forall k :: k in grouped <==> k in keys)
    && (forall k :: k in grouped ==> grouped[k] == multiset(keys)[k])
  }

  /** One more key bumps its count, or enters it with count 1. */
  lemma CountsStep(grouped: map<string, nat>, keys: seq<string>, i: int)
    requires 0 <= i < |keys| && CountsOf(grouped, keys[..i])
    ensures var key := keys[i];
            CountsOf(grouped[key := (if key in grouped then grouped[key] else 0) + 1], keys[..i + 1])
  {
    PrefixStep(keys, i);
  }

  /** Extending a prefix of the keys by one key. */
  lemma PrefixStep(keys: seq<string>, i: int)
    requires 0 <= i < |keys|
    ensures multiset(keys[..i + 1]) == multiset(keys[..i]) + multiset{keys[i]}
    ensures forall k :: k in keys[..i + 1] <==> k in keys[..i] || k == keys[i]
    ensures FirstOccurrences(keys[..i + 1]) ==
            if keys[i] in keys[..i] then FirstOccurrences(keys[..i]) else FirstOccurrences(keys[..i]) + [keys[i]]
  {
    assert keys[..i + 1] == keys[..i] + [keys[i]];
    assert keys[..i + 1][..i] == keys[..i];
  }

  /** `Object.keys(grouped).map(key => ({ name: key, value: grouped[key] }))`. */
  function Entries(order: seq<string>, grouped: map<string, nat>): (r: seq<Entry>)
    requires forall k :: k in order ==> k in grouped
    ensures |r| == |order|
    ensures forall i :: 0 <= i < |r| ==> r[i] == Entry(order[i], grouped[order[i]])
  {
    seq(|order|, i requires 0 <= i < |order| => Entry(order[i], grouped[order[i]]))
  }

  /** Number of trips per key, keys in order of first occurrence. */
  function Tally(keys: seq<string>): (r: seq<Entry>)
    ensures |r| == |FirstOccurrences(keys)|
    ensures forall i :: 0 <= i < |r| ==> r[i] == Entry(FirstOccurrences(keys)[i], multiset(keys)[FirstOccurrences(keys)[i]])
  {
    var d := FirstOccurrences(keys);
    seq(|d|, i requires 0 <= i < |d| => Entry(d[i], multiset(keys)[d[i]]))
  }

  /** Grouping then listing the keys computes the tally. */
  method GroupedEntries(keys: seq<string>) returns (r: seq<Entry>)
    ensures r == Tally(keys)
  {
    var grouped, order := GroupCounts(keys);
    r := Entries(order, grouped);
  }

  /** Each entry is one key of the input, listed once, with its exact number of occurrences. */
  lemma TallyFacts(keys: seq<string>)
    ensures var r := Tally(keys);
            && (forall i :: 0 <= i < |r| ==> r[i].name in keys && r[i].count == multiset(keys)[r[i].name] && r[i].count >= 1)
            && (forall k :: k in keys ==> exists i :: 0 <= i < |r| && r[i].name == k)
            && (forall i, j :: 0 <= i < j < |r| ==> r[i].name != r[j].name)
  {
    var r, d := Tally(keys), FirstOccurrences(keys);
    forall i | 0 <= i < |r| ensures r[i].name in keys && r[i].count >= 1 {
      assert d[i] in keys;
      assert d[i] in multiset(keys);
    }
    forall k | k in keys ensures exists i :: 0 <= i < |r| && r[i].name == k {
      var i :| 0 <= i < |d| && d[i] == k;
      assert r[i].name == k;
    }
  }

  /** Sum of the counts of a list of entries. */
  function EntriesTotal(entries: seq<Entry>): nat
  {
    if entries == [] then 0 else EntriesTotal(entries[..|entries| - 1]) + entries[|entries| - 1].count
  }

  /** Sum of `m[k]` over the keys of `order`. */
  function CountsTotal(order: seq<string>, m: multiset<string>): nat
  {
    if order == [] then 0 else CountsTotal(order[..|order| - 1], m) + m[order[|order| - 1]]
  }

  /** One more occurrence of k raises the total over distinct keys by one exactly when k is among them. */
  lemma {:induction false} CountsTotalBump(order: seq<string>, m: multiset<string>, k: string)
    requires Lists.NoDuplicates(order)
    ensures CountsTotal(order, m + multiset{k}) == CountsTotal(order, m) + (if k in order then 1 else 0)
  {
    if order != [] {
      var prefix, x := order[..|order| - 1], order[|order| - 1];
      CountsTotalBump(prefix, m, k);
      assert forall y :: y in order <==> y in prefix || y == x;
      assert x == k ==> k !in prefix;
    }
  }

  /** Over the distinct keys, the occurrence counts add up to the number of keys. */
  lemma {:induction false} CountsTotalCovers(keys: seq<string>)
    ensures CountsTotal(FirstOccurrences(keys), multiset(keys)) == |keys|
  {
    if keys != [] {
      var prefix, k := keys[..|keys| - 1], keys[|keys| - 1];
      assert keys == prefix + [k];
      var rest := FirstOccurrences(prefix);
      CountsTotalCovers(prefix);
      CountsTotalBump(rest, multiset(prefix), k);
      if k !in rest {
        assert (rest + [k])[..|rest|] == rest;
        assert multiset(prefix)[k] == 0;
      }
    }
  }

  /** The entries of a tally carry the counts of its keys. */
  lemma {:induction false} EntriesTotalOf(keys: seq<string>, n: nat)
    requires n <= |FirstOccurrences(keys)|
    ensures EntriesTotal(Tally(keys)[..n]) == CountsTotal(FirstOccurrences(keys)[..n], multiset(keys))
  {
    if n > 0 {
      EntriesTotalOf(keys, n - 1);
      assert Tally(keys)[..n][..n - 1] == Tally(keys)[..n - 1];
      assert FirstOccurrences(keys)[..n][..n - 1] == FirstOccurrences(keys)[..n - 1];
    }
  }

  /** The counts of a tally add up to the number of keys: every trip is counted once. */
  lemma TallyTotal(keys: seq<string>)
    ensures EntriesTotal(Tally(keys)) == |keys|
  {
    var r, d := Tally(keys), FirstOccurrences(keys);
    EntriesTotalOf(keys, |d|);
    assert r[..|d|] == r && d[..|d|] == d;
    CountsTotalCovers(keys);
  }

  function JobLabel(t: Trip): string { t.jobType.Label() }
  function ClientOf(t: Trip): string { t.clientName }

  /** The key of each trip, in order. */
  function KeysOf(trips: seq<Trip>, key: Trip -> string): (r: seq<string>)
    ensures |r| == |trips|
    ensures forall i :: 0 <= i < |trips| ==> r[i] == key(trips[i])
  {
    seq(|trips|, i requires 0 <= i < |trips| => key(trips[i]))
  }

  /**
   * `typeData`: trips per job-type label, labels in order of first
   * appearance; the counts add up to the number of trips.
   */
  method TypeData(filtered: seq<Trip>) returns (r: seq<Entry>)
    ensures r == Tally(KeysOf(filtered, JobLabel))
    ensures EntriesTotal(r) == |filtered|
  {
    r := GroupedEntries(KeysOf(filtered, JobLabel));
    TallyTotal(KeysOf(filtered, JobLabel));
  }

  /** The comparator `b.count - a.count`: a goes first when it has more trips. */
  function MoreTrips(a: Entry, b: Entry): bool
  {
    a.count > b.count
  }

  function Top5(sorted: seq<Entry>): (r: seq<Entry>)
    ensures |r| <= 5
  {
    if |sorted| <= 5 then sorted else sorted[..5]
  }

  /** The clients with the most trips, most first: tally, stable sort by count, first five. */
  function TopClients(filtered: seq<Trip>): seq<Entry>
  {
    Top5(Sorting.SortBy(Tally(KeysOf(filtered, ClientOf)), MoreTrips))
  }

  /** `clientData`. */
  method ClientData(filtered: seq<Trip>) returns (r: seq<Entry>)
    ensures r == TopClients(filtered)
  {
    var entries := GroupedEntries(KeysOf(filtered, ClientOf));
    var sorted := Sorting.SortBy(entries, MoreTrips);
    r := if |sorted| <= 5 then sorted else sorted[..5];
  }

  lemma MoreTripsIsOrder()
    ensures Sorting.Asymmetric(MoreTrips)
    ensures Sorting.NegativelyTransitive(MoreTrips)
  {
  }

  /** The tally of the client names, sorted most trips first. */
  function SortedClients(filtered: seq<Trip>): (r: seq<Entry>)
    ensures multiset(r) == multiset(Tally(KeysOf(filtered, ClientOf)))
    ensures |r| == |FirstOccurrences(KeysOf(filtered, ClientOf))|
    ensures TopClients(filtered) == Top5(r)
  {
    var r := Sorting.SortBy(Tally(KeysOf(filtered, ClientOf)), MoreTrips);
    assert |r| == |multiset(r)|;
    r
  }

  /** The sorted tally has the most trips first throughout. */
  lemma SortedClientsOrdered(filtered: seq<Trip>)
    ensures var s := SortedClients(filtered);
            forall i, j :: 0 <= i < j < |s| ==> s[j].count <= s[i].count
  {
    var s := SortedClients(filtered);
    MoreTripsIsOrder();
    Sorting.SortByOrdered(Tally(KeysOf(filtered, ClientOf)), MoreTrips);
    Sorting.AdjacentToOrdered(s, MoreTrips);
  }

  /** At most five clients are shown, fewer only when fewer clients have trips, and most trips first. */
  lemma TopClientsShape(filtered: seq<Trip>)
    ensures var r := TopClients(filtered);
            var clients := FirstOccurrences(KeysOf(filtered, ClientOf));
            && |r| == (if |clients| <= 5 then |clients| else 5)
            && (forall i, j :: 0 <= i < j < |r| ==> r[j].count <= r[i].count)
  {
    var s := SortedClients(filtered);
    var r := TopClients(filtered);
    SortedClientsOrdered(filtered);
    assert r == Top5(s);
    if |s| > 5 {
      assert r == s[..5];
      forall i, j | 0 <= i < j < |r| ensures r[j].count <= r[i].count {
        assert r[i] == s[i] && r[j] == s[j];
      }
    }
  }

  /** Each shown client is a client of the window with its exact number of trips. */
  lemma TopClientsExact(filtered: seq<Trip>)
    ensures var names := KeysOf(filtered, ClientOf);
            forall e :: e in TopClients(filtered) ==> e.name in names && e.count == multiset(names)[e.name]
  {
    var names := KeysOf(filtered, ClientOf);
    var s := SortedClients(filtered);
    forall e | e in TopClients(filtered) ensures e.name in names && e.count == multiset(names)[e.name] {
      assert e in s;
      assert e in multiset(s);
      assert e in Tally(names);
      TallyFacts(names);
    }
  }

  /** No client left out of the top five has more trips than any client shown. */
  lemma TopClientsDropped(filtered: seq<Trip>)
    ensures var r := TopClients(filtered);
            forall e, c :: e in Tally(KeysOf(filtered, ClientOf)) && e !in r && c in r ==> e.count <= c.count
  {
    var s := SortedClients(filtered);
    var r := TopClients(filtered);
    SortedClientsOrdered(filtered);
    assert forall k :: 0 <= k < |r| ==> r[k] == s[k];
    forall e, c | e in Tally(KeysOf(filtered, ClientOf)) && e !in r && c in r ensures e.count <= c.count {
      assert e in multiset(s);
      var j :| 0 <= j < |s| && s[j] == e;
      var i :| 0 <= i < |r| && r[i] == c;
      assert j >= |r|;
    }
  }
}
