/**
 * The destination ranking pipeline of src/screens/NearbyDestinationsScreen.js:
 * every destination is copied with a `distance` field added, the copies are
 * sorted in place by ascending distance with `Array.prototype.sort` (which
 * is stable), and the screen shows the entries of the requested travel type,
 * or all of them when none is requested.
 *
 * Distances are reals produced by an arbitrary distance function supplied by
 * the caller; the haversine formula itself is not part of this model.
 */
module Ranking {

  datatype Coordinates = Coordinates(latitude: real, longitude: real)

  datatype Destination = Destination(name: string, country: string, travelType: string, coordinates: Coordinates)

  /** `{ ...dest, distance }`: a destination with its distance from the user. */
  datatype RankedDestination = RankedDestination(
    name: string, country: string, travelType: string, coordinates: Coordinates, distance: real)

  function Tag(dest: Destination, distance: real): RankedDestination {
    RankedDestination(dest.name, dest.country, dest.travelType, dest.coordinates, distance)
  }

  /** The destination a ranked copy was made from. */
  function Untag(ranked: RankedDestination): Destination {
    Destination(ranked.name, ranked.country, ranked.travelType, ranked.coordinates)
  }

  /**
   * `data.map(dest => ({ ...dest, distance: distanceKm(here, dest.coordinates) }))`:
   * one copy per destination, in order, each equal to its destination apart
   * from the added distance.
   */
  function WithDistances(data: seq<Destination>, here: Coordinates,
                         distanceKm: (Coordinates, Coordinates) -> real): (ranked: seq<RankedDestination>)
    ensures |ranked| == |data|
    ensures forall i | 0 <= i < |data| ::
              Untag(ranked[i]) == data[i] && ranked[i].distance == distanceKm(here, data[i].coordinates)
  {
    var ranked := seq(|data|, i requires 0 <= i < |data| => Tag(data[i], distanceKm(here, data[i].coordinates)));
    assert forall i | 0 <= i < |data| :: ranked[i] == Tag(data[i], distanceKm(here, data[i].coordinates));
    ranked
  }

  predicate SortedByDistance(s: seq<RankedDestination>) {
    forall i, j | 0 <= i < j < |s| :: s[i].distance <= s[j].distance
  }

  // ---------------------------------------------------------------------
  // Filtering (`Array.prototype.filter`)
  // ---------------------------------------------------------------------

  /** The elements of `s` that `keep` accepts, in their order in `s`. */
  function Filter<T>(s: seq<T>, keep: T -> bool): (r: seq<T>)
    ensures |r| <= |s|
  {
    if s == [] then []
    else Filter(s[..|s| - 1], keep) + (if keep(s[|s| - 1]) then [s[|s| - 1]] else [])
  }

  /** Filtering keeps every accepted element as often as it occurs, and nothing else. */
  lemma {:induction false} FilterCount<T>(s: seq<T>, keep: T -> bool, x: T)
    ensures multiset(Filter(s, keep))[x] == if keep(x) then multiset(s)[x] else 0
  {
    if s != [] {
      var init, last := s[..|s| - 1], s[|s| - 1];
      FilterCount(init, keep, x);
      assert s == init + [last];
    }
  }

  /** Filtering a sequence with one element appended. */
  lemma FilterSnoc<T>(s: seq<T>, x: T, keep: T -> bool)
    ensures Filter(s + [x], keep) == Filter(s, keep) + (if keep(x) then [x] else [])
  {
    assert (s + [x])[..|s|] == s;
  }

  /** `r` is `s` with some elements left out, the rest kept in order. */
  ghost predicate IsSubsequence<T>(r: seq<T>, s: seq<T>) {
    if r == [] then true
    else if s == [] then false
    else (r[|r| - 1] == s[|s| - 1] && IsSubsequence(r[..|r| - 1], s[..|s| - 1]))
         || IsSubsequence(r, s[..|s| - 1])
  }

  lemma {:induction false} FilterIsSubsequence<T>(s: seq<T>, keep: T -> bool)
    ensures IsSubsequence(Filter(s, keep), s)
  {
    if s != [] {
      var init, last := s[..|s| - 1], s[|s| - 1];
      FilterIsSubsequence(init, keep);
      var r := Filter(s, keep);
      if keep(last) {
        assert r == Filter(init, keep) + [last];
        assert r[|r| - 1] == last && r[..|r| - 1] == Filter(init, keep);
        assert IsSubsequence(r[..|r| - 1], init);
      } else {
        assert r == Filter(init, keep);
        if r != [] {
          assert IsSubsequence(r, init);
        }
      }
    }
  }

  lemma {:induction false} FilterSorted(s: seq<RankedDestination>, keep: RankedDestination -> bool)
    requires SortedByDistance(s)
    ensures SortedByDistance(Filter(s, keep))
  {
    if s != [] {
      var init, last := s[..|s| - 1], s[|s| - 1];
      FilterSorted(init, keep);
      var f := Filter(init, keep);
      forall k | 0 <= k < |f| ensures f[k].distance <= last.distance {
        FilterCount(init, keep, f[k]);
        assert multiset(f)[f[k]] > 0;
        assert f[k] in init;
      }
    }
  }

  // ---------------------------------------------------------------------
  // Stable sorting by distance
  // ---------------------------------------------------------------------

  /**
   * Inserts `x` after the last element of `s` that is not farther than it:
   * the step of a stable insertion sort.
   */
  function Insert(s: seq<RankedDestination>, x: RankedDestination): (r: seq<RankedDestination>)
    ensures |r| == |s| + 1
  {
    if s == [] || s[|s| - 1].distance <= x.distance then s + [x]
    else Insert(s[..|s| - 1], x) + [s[|s| - 1]]
  }

  lemma {:induction false} InsertPermutes(s: seq<RankedDestination>, x: RankedDestination)
    ensures multiset(Insert(s, x)) == multiset(s) + multiset{x}
  {
    if s != [] && s[|s| - 1].distance > x.distance {
      InsertPermutes(s[..|s| - 1], x);
      assert s == s[..|s| - 1] + [s[|s| - 1]];
    }
  }

  /**
   * The order `sort((a, b) => a.distance - b.distance)` produces: ascending
   * distance, equal distances in their original order.
   */
  function StableSort(s: seq<RankedDestination>): (r: seq<RankedDestination>)
    ensures |r| == |s|
  {
    if s == [] then [] else Insert(StableSort(s[..|s| - 1]), s[|s| - 1])
  }

  /** The ranking is a permutation of its input. */
  lemma {:induction false} StableSortPermutes(s: seq<RankedDestination>)
    ensures multiset(StableSort(s)) == multiset(s)
  {
    if s != [] {
      StableSortPermutes(s[..|s| - 1]);
      InsertPermutes(StableSort(s[..|s| - 1]), s[|s| - 1]);
      assert s == s[..|s| - 1] + [s[|s| - 1]];
    }
  }

  lemma {:induction false} InsertSorted(s: seq<RankedDestination>, x: RankedDestination)
    requires SortedByDistance(s)
    ensures SortedByDistance(Insert(s, x))
  {
    if s != [] && s[|s| - 1].distance > x.distance {
      var init, last := s[..|s| - 1], s[|s| - 1];
      InsertSorted(init, x);
      var r := Insert(init, x);
      InsertPermutes(init, x);
      forall k | 0 <= k < |r| ensures r[k].distance <= last.distance {
        assert multiset(r)[r[k]] > 0;
        assert r[k] in init || r[k] == x;
      }
    }
  }

  /** The ranking is in ascending order of distance. */
  lemma {:induction false} StableSortSorted(s: seq<RankedDestination>)
    ensures SortedByDistance(StableSort(s))
  {
    if s != [] {
      StableSortSorted(s[..|s| - 1]);
      InsertSorted(StableSort(s[..|s| - 1]), s[|s| - 1]);
    }
  }

  /** Selects the elements at distance `d`. */
  function DistanceIs(d: real): RankedDestination -> bool {
    (x: RankedDestination) => x.distance == d
  }

  lemma {:induction false} InsertKeepsTies(s: seq<RankedDestination>, x: RankedDestination, d: real)
    ensures Filter(Insert(s, x), DistanceIs(d)) == Filter(s + [x], DistanceIs(d))
  {
    if s != [] && s[|s| - 1].distance > x.distance {
      var init, last := s[..|s| - 1], s[|s| - 1];
      var p := DistanceIs(d);
      var xs := if p(x) then [x] else [];
      var ls := if p(last) then [last] else [];
      assert xs == [] || ls == [];
      assert Insert(s, x) == Insert(init, x) + [last];
      calc {
        Filter(Insert(s, x), p);
        { FilterSnoc(Insert(init, x), last, p); }
        Filter(Insert(init, x), p) + ls;
        { InsertKeepsTies(init, x, d); }
        Filter(init + [x], p) + ls;
        { FilterSnoc(init, x, p); }
        Filter(init, p) + xs + ls;
        Filter(init, p) + ls + xs;
        { FilterSnoc(init, last, p); assert s == init + [last]; }
        Filter(s, p) + xs;
        { FilterSnoc(s, x, p); }
        Filter(s + [x], p);
      }
    }
  }

  /**
   * The sort is stable: for every distance, the elements at that distance
   * keep the order they had.
   */
  lemma {:induction false} StableSortStable(s: seq<RankedDestination>, d: real)
    ensures Filter(StableSort(s), DistanceIs(d)) == Filter(s, DistanceIs(d))
  {
    if s != [] {
      var init, last := s[..|s| - 1], s[|s| - 1];
      var p := DistanceIs(d);
      calc {
        Filter(StableSort(s), p);
        Filter(Insert(StableSort(init), last), p);
        { InsertKeepsTies(StableSort(init), last, d); }
        Filter(StableSort(init) + [last], p);
        { FilterSnoc(StableSort(init), last, p); StableSortStable(init, d); FilterSnoc(init, last, p); }
        Filter(init + [last], p);
        { assert s == init + [last]; }
        Filter(s, p);
      }
    }
  }

  /**
   * Inserting `x` into `s` puts it at index `j` when the element just before
   * `j` is not farther than `x` and every element from `j` on is farther.
   */
  lemma {:induction false} InsertAt(s: seq<RankedDestination>, x: RankedDestination, j: nat)
    requires j <= |s|
    requires j == 0 || s[j - 1].distance <= x.distance
    requires forall k | j <= k < |s| :: s[k].distance > x.distance
    ensures Insert(s, x) == s[..j] + [x] + s[j..]
    decreases |s| - j
  {
    if j < |s| {
      var init, last := s[..|s| - 1], s[|s| - 1];
      assert last.distance > x.distance;
      assert Insert(s, x) == Insert(init, x) + [last];
      assert forall k | j <= k < |init| :: init[k] == s[k];
      assert j == 0 || init[j - 1] == s[j - 1];
      InsertAt(init, x, j);
      calc {
        Insert(s, x);
        init[..j] + [x] + init[j..] + [last];
        { assert init[..j] == s[..j]; assert init[j..] + [last] == s[j..]; }
        s[..j] + [x] + s[j..];
      }
    } else {
      assert s[..j] == s && s[j..] == [];
    }
  }

  /**
   * One step of the insertion sort: moves `a[i]` down past the farther
   * elements of `a[..i]`, shifting them up by one.
   */
  method InsertNext(a: array<RankedDestination>, i: nat)
    requires i < a.Length
    modifies a
    ensures a[..i + 1] == Insert(old(a[..i]), old(a[i]))
    ensures a[i + 1..] == old(a[i + 1..])
  {
    var x := a[i];
    ghost var sorted := a[..i];
    var j := i;
    while j > 0 && a[j - 1].distance > x.distance
      invariant 0 <= j <= i
      invariant a[..j] == sorted[..j]
      invariant a[j + 1..i + 1] == sorted[j..i]
      invariant forall k | j <= k < i :: sorted[k].distance > x.distance
      invariant a[i + 1..] == old(a[i + 1..])
    {
      a[j] := a[j - 1];
      assert a[j..i + 1] == [sorted[j - 1]] + sorted[j..i];
      j := j - 1;
    }
    a[j] := x;
    assert a[..i + 1] == a[..j] + [a[j]] + a[j + 1..i + 1];
    InsertAt(sorted, x, j);
  }

  /** One insertion extends the sorted prefix by the next element of the input. */
  lemma SortStep(original: seq<RankedDestination>, before: seq<RankedDestination>,
                 after: seq<RankedDestination>, i: nat)
    requires i < |original| == |before| == |after|
    requires before[..i] == StableSort(original[..i]) && before[i..] == original[i..]
    requires after[..i + 1] == Insert(before[..i], before[i]) && after[i + 1..] == before[i + 1..]
    ensures after[..i + 1] == StableSort(original[..i + 1]) && after[i + 1..] == original[i + 1..]
  {
    assert before[i] == original[i] by {
      assert before[i..][0] == original[i..][0];
    }
    assert before[i + 1..] == before[i..][1..];
    assert original[i + 1..] == original[i..][1..];
    ghost var prefix := original[..i + 1];
    assert prefix[..i] == original[..i] && prefix[i] == original[i];
  }

  /**
   * `destinationsWithDistance.sort((a, b) => a.distance - b.distance)`, in
   * place. An insertion sort: the result is the stable order, which is what
   * any stable sort produces.
   */
  method SortByDistance(a: array<RankedDestination>)
    modifies a
    ensures a[..] == StableSort(old(a[..]))
  {
    ghost var original := a[..];
    var i := 0;
    while i < a.Length
      invariant 0 <= i <= a.Length
      invariant a[..i] == StableSort(original[..i])
      invariant a[i..] == original[i..]
    {
      ghost var before := a[..];
      InsertNext(a, i);
      SortStep(original, before, a[..], i);
      i := i + 1;
    }
    assert original[..a.Length] == original;
  }

  // ---------------------------------------------------------------------
  // Filtering by travel type
  // ---------------------------------------------------------------------

  function TravelTypeIs(travelType: string): RankedDestination -> bool {
    (x: RankedDestination) => x.travelType == travelType
  }

  /**
   * `filteredDestinations`: the whole list when no travel type is requested
   * (`""` is falsy), otherwise the entries of that travel type.
   */
  function FilterByTravelType(destinations: seq<RankedDestination>, travelType: string): (shown: seq<RankedDestination>)
    ensures travelType == "" ==> shown == destinations
    ensures |shown| <= |destinations|
  {
    if travelType == "" then destinations else Filter(destinations, TravelTypeIs(travelType))
  }

  /**
   * With a travel type, exactly the list's entries of that travel type are
   * shown, each as often as it occurs in the list.
   */
  lemma FilterByTravelTypeCounts(destinations: seq<RankedDestination>, travelType: string, x: RankedDestination)
    requires travelType != ""
    ensures multiset(FilterByTravelType(destinations, travelType))[x] ==
              if x.travelType == travelType then multiset(destinations)[x] else 0
  {
    FilterCount(destinations, TravelTypeIs(travelType), x);
  }

  /**
   * With no travel type the list is shown whole; in every case the shown
   * entries keep their order in the list, so an ascending list stays
   * ascending.
   */
  lemma FilterByTravelTypeKeepsOrder(destinations: seq<RankedDestination>, travelType: string)
    ensures travelType == "" ==> FilterByTravelType(destinations, travelType) == destinations
    ensures IsSubsequence(FilterByTravelType(destinations, travelType), destinations)
    ensures SortedByDistance(destinations) ==> SortedByDistance(FilterByTravelType(destinations, travelType))
  {
    if travelType == "" {
      SubsequenceOfItself(destinations);
    } else {
      FilterIsSubsequence(destinations, TravelTypeIs(travelType));
      if SortedByDistance(destinations) {
        FilterSorted(destinations, TravelTypeIs(travelType));
      }
    }
  }

  lemma {:induction false} SubsequenceOfItself<T>(s: seq<T>)
    ensures IsSubsequence(s, s)
  {
    if s != [] {
      SubsequenceOfItself(s[..|s| - 1]);
    }
  }
}
