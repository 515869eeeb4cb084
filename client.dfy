/**
 * The pure helpers of the map client: the colour of a bus marker, the
 * "recent buses" list kept most-recently-used first, and the label of the
 * next stop in the details panel. The client receives the buses and stops
 * the backend sends, so it uses the backend's records.
 */
module Client {
  import opened Fleet

  // ---------------------------------------------------------------------------
  // Marker colour
  // ---------------------------------------------------------------------------

  const Red: string := "#d73a49"
  const Orange: string := "#ff8c00"
  const Green: string := "#2ea44f"

  /** The marker colour: overcrowding outranks delay, and a bus with neither flag is green. */
  function BusIconColor(b: Bus): (color: string)
    ensures b.overcrowded ==> color == Red
    ensures !b.overcrowded && b.delayed ==> color == Orange
    ensures color == Green <==> !b.overcrowded && !b.delayed
  {
    if b.overcrowded then Red else if b.delayed then Orange else Green
  }

  // ---------------------------------------------------------------------------
  // Recently tracked buses
  // ---------------------------------------------------------------------------

  /** The minimal record kept for a tracked bus. */
  datatype Recent = Recent(busId: int, routeId: int)

  const RecentCapacity: nat := 5

  /** `a` can be obtained from `b` by deleting elements: their order is kept. */
  predicate IsSubsequence<T(==)>(a: seq<T>, b: seq<T>)
    decreases |b|
  {
    if a == [] then true
    else if b == [] then false
    else if a[0] == b[0] then IsSubsequence(a[1..], b[1..])
    else IsSubsequence(a, b[1..])
  }

  /** The entries whose bus is not `busId`, as `recent.filter((b) => b.bus_id !== busId)`. */
  function WithoutBus(recent: seq<Recent>, busId: int): (r: seq<Recent>)
    ensures |r| <= |recent|
    ensures forall i :: 0 <= i < |r| ==> r[i].busId != busId
    ensures forall x :: x in r <==> x in recent && x.busId != busId
    ensures (forall i :: 0 <= i < |recent| ==> recent[i].busId != busId) ==> r == recent
  {
    if recent == [] then []
    else if recent[0].busId == busId then WithoutBus(recent[1..], busId)
    else [recent[0]] + WithoutBus(recent[1..], busId)
  }

  /** Filtering keeps every entry of another bus as often as it occurs and drops the others. */
  lemma {:induction false} WithoutBusKeepsCounts(recent: seq<Recent>, busId: int)
    ensures forall x :: multiset(WithoutBus(recent, busId))[x] ==
                        if x.busId != busId then multiset(recent)[x] else 0
    decreases |recent|
  {
    if recent != [] {
      WithoutBusKeepsCounts(recent[1..], busId);
      assert recent == [recent[0]] + recent[1..];
    }
  }

  /** Filtering deletes elements and keeps the order of the rest. */
  lemma {:induction false} WithoutBusIsSubsequence(recent: seq<Recent>, busId: int)
    ensures IsSubsequence(WithoutBus(recent, busId), recent)
    decreases |recent|
  {
    if recent != [] {
      WithoutBusIsSubsequence(recent[1..], busId);
      var rest := WithoutBus(recent[1..], busId);
      if recent[0].busId == busId {
        SubsequenceOfTail(rest, recent);
      } else {
        assert ([recent[0]] + rest)[1..] == rest;
      }
    }
  }

  /** A subsequence of the tail is a subsequence of the whole. */
  lemma {:induction false} SubsequenceOfTail<T>(a: seq<T>, b: seq<T>)
    requires b != [] && IsSubsequence(a, b[1..])
    ensures IsSubsequence(a, b)
    decreases |b|, 0
  {
    if a != [] && a[0] == b[0] {
      // greedy matching takes b[0]; the rest of `a` still fits in what follows
      SubsequenceDropFront(a, b[1..]);
    }
  }

  /** Dropping the first element of a subsequence leaves a subsequence. */
  lemma {:induction false} SubsequenceDropFront<T>(a: seq<T>, b: seq<T>)
    requires a != [] && IsSubsequence(a, b)
    ensures IsSubsequence(a[1..], b)
    decreases |b|, 1
  {
    assert b != [];
    if a[0] == b[0] {
      if a[1..] != [] {
        SubsequenceOfTail(a[1..], b);
      }
    } else {
      SubsequenceDropFront(a, b[1..]);
      SubsequenceOfTail(a[1..], b);
    }
  }

  /** A prefix of a subsequence is a subsequence. */
  lemma {:induction false} SubsequencePrefix<T>(a: seq<T>, b: seq<T>, k: nat)
    requires k <= |a| && IsSubsequence(a, b)
    ensures IsSubsequence(a[..k], b)
    decreases |b|
  {
    if k > 0 {
      assert b != [];
      if a[0] == b[0] {
        assert a[..k][1..] == a[1..][..k - 1];
        SubsequencePrefix(a[1..], b[1..], k - 1);
      } else {
        SubsequencePrefix(a, b[1..], k);
      }
    }
  }

  /**
   * The list after tracking `entry`: the entry first, then the older entries
   * of other buses in their old order, cut to five.
   */
  function TrackRecent(recent: seq<Recent>, entry: Recent): (r: seq<Recent>)
    ensures 0 < |r| <= RecentCapacity
    ensures r[0] == entry
    ensures forall i :: 1 <= i < |r| ==> r[i].busId != entry.busId
    ensures forall x :: x in r[1..] ==> x in recent
    ensures |r| == if 1 + |WithoutBus(recent, entry.busId)| < RecentCapacity
                   then 1 + |WithoutBus(recent, entry.busId)| else RecentCapacity
    // after the entry come the older entries of other buses, in their old order
    ensures r[1..] == WithoutBus(recent, entry.busId)[..|r| - 1]
  {
    var rest := WithoutBus(recent, entry.busId);
    var updated := [entry] + rest;
    var r := updated[..if |updated| < RecentCapacity then |updated| else RecentCapacity];
    assert forall i :: 1 <= i < |r| ==> r[i] == rest[i - 1];
    r
  }

  /** The surviving older entries keep their relative order. */
  lemma TrackRecentKeepsOrder(recent: seq<Recent>, entry: Recent)
    ensures IsSubsequence(TrackRecent(recent, entry)[1..], recent)
  {
    var rest := WithoutBus(recent, entry.busId);
    var r := TrackRecent(recent, entry);
    WithoutBusIsSubsequence(recent, entry.busId);
    assert r[1..] == rest[..|r| - 1];
    SubsequencePrefix(rest, recent, |r| - 1);
  }

  /** Tracking the same bus twice in a row leaves the list as tracking it once. */
  lemma TrackRecentIdempotent(recent: seq<Recent>, entry: Recent)
    ensures TrackRecent(TrackRecent(recent, entry), entry) == TrackRecent(recent, entry)
  {
    var once := TrackRecent(recent, entry);
    var rest := once[1..];
    assert WithoutBus(rest, entry.busId) == rest;
    assert once == [once[0]] + rest;
    assert WithoutBus(once, entry.busId) == rest;
    assert [entry] + rest == once;
  }

  /** No two entries of the list are for the same bus. */
  predicate DistinctBuses(recent: seq<Recent>)
  {
    forall i, j :: 0 <= i < j < |recent| ==> recent[i].busId != recent[j].busId
  }

  /** Filtering a list of distinct buses keeps them distinct. */
  lemma {:induction false} WithoutBusKeepsDistinct(recent: seq<Recent>, busId: int)
    requires DistinctBuses(recent)
    ensures DistinctBuses(WithoutBus(recent, busId))
    decreases |recent|
  {
    if recent != [] {
      assert DistinctBuses(recent[1..]);
      WithoutBusKeepsDistinct(recent[1..], busId);
      var rest := WithoutBus(recent[1..], busId);
      if recent[0].busId != busId {
        forall j | 0 <= j < |rest|
          ensures recent[0].busId != rest[j].busId
        {
          assert rest[j] in recent[1..];
        }
        assert forall j :: 1 <= j < |rest| + 1 ==> ([recent[0]] + rest)[j] == rest[j - 1];
      }
    }
  }

  /** A list that starts without repeated buses never acquires one. */
  lemma TrackRecentKeepsDistinct(recent: seq<Recent>, entry: Recent)
    requires DistinctBuses(recent)
    ensures DistinctBuses(TrackRecent(recent, entry))
  {
    var rest := WithoutBus(recent, entry.busId);
    WithoutBusKeepsDistinct(recent, entry.busId);
    var r := TrackRecent(recent, entry);
    assert forall i :: 1 <= i < |r| ==> r[i] == rest[i - 1];
  }

  // ---------------------------------------------------------------------------
  // Next-stop label
  // ---------------------------------------------------------------------------

  /**
   * `routeStops[idx]?.name || "End"`: the name of the stop at `idx` when there
   * is one and it is not empty; "End" otherwise.
   */
  function NextStopLabel(stops: seq<Stop>, idx: int): (text: string)
    ensures 0 <= idx < |stops| && stops[idx].name != "" ==> text == stops[idx].name
    ensures !(0 <= idx < |stops|) ==> text == "End"
    ensures 0 <= idx < |stops| && stops[idx].name == "" ==> text == "End"
    ensures text != ""
  {
    if 0 <= idx < |stops| && stops[idx].name != "" then stops[idx].name else "End"
  }

  /**
   * A bus the store keeps on its route, shown against that route as the
   * backend serves it, is labelled with the (aliased) name of its target stop
   * whenever the stored names are non-empty.
   */
  lemma PlacedBusShowsItsStop(b: Bus, routes: Routes)
    requires OnRoute(b, routes)
    requires forall i :: 0 <= i < |routes[b.routeId]| ==> routes[b.routeId][i].name != ""
    ensures NextStopLabel(AliasStops(routes[b.routeId]), b.nextStopIdx)
            == Alias(routes[b.routeId][b.nextStopIdx].name)
  {
    var name := routes[b.routeId][b.nextStopIdx].name;
    assert name in Landmarks ==> Landmarks[name] != "";
  }
}
