/**
 * The simulated fleet of the bus-tracking backend: a fixed route catalogue, a
 * fixed roster of buses that a periodic tick moves toward their next stops,
 * append-only complaint and SOS logs, and the read-only queries over them.
 *
 * Coordinates, speeds and ETAs are reals. The great-circle distance is a
 * parameter `dist` of which only non-negativity is known; the weekday comes
 * in as a parameter instead of from the clock; the random delay draw of each
 * bus comes in as `draws(i)` for the i-th bus of the roster.
 */
module Fleet {
  import opened Common

  datatype Stop = Stop(name: string, lat: real, lon: real, scheduledTime: real)

  datatype Bus = Bus(
    busId: int,
    routeId: int,
    lat: real,
    lon: real,
    speedKmph: real,
    status: string,
    overcrowded: bool,
    nextStopIdx: int,
    etaMin: real,
    delayed: bool)

  datatype Complaint = Complaint(busId: int, message: string, timestamp: string)

  datatype SosAlert = SosAlert(busId: int, passengerName: string, emergency: string, timestamp: string)

  /** What the admin dashboard reports. */
  datatype Overview = Overview(
    activeBuses: nat,
    delayed: nat,
    overcrowded: nat,
    complaints: nat,
    sos: nat,
    festivalDelay: bool)

  /** The reply of the chat endpoint, before it is rendered as a sentence. */
  datatype ChatReply =
    | BusStatus(busId: nat, status: string, etaMin: real, overcrowded: bool)
    | NoInformation(busId: nat)
    | NotUnderstood

  type Routes = map<int, seq<Stop>>

  /** Great-circle distance in km between (lat1, lon1) and (lat2, lon2). */
  type Distance = (real, real, real, real) -> real

  ghost predicate IsDistance(dist: Distance)
  {
    forall lat1, lon1, lat2, lon2 :: dist(lat1, lon1, lat2, lon2) >= 0.0
  }

  // ---------------------------------------------------------------------------
  // Constants and tables
  // ---------------------------------------------------------------------------

  /** Share of the remaining lat/lon delta a bus covers per tick. */
  const MoveFraction: real := 0.03
  /** Both deltas strictly below this count as having reached the stop. */
  const ArrivalThreshold: real := 0.0002
  const WeekendDays: seq<string> := ["Saturday", "Sunday"]
  const FestivalDays: seq<string> := ["Diwali", "Pongal"]
  const WeekendPenalty: real := 5.0
  const FestivalPenalty: real := 10.0

  const Landmarks: map<string, string> := map[
    "Koyambedu" := "CMBT",
    "Vadapalani" := "Forum Vijaya Mall",
    "Mylapore" := "Kapaleeshwarar Temple",
    "Triplicane" := "Parthasarathy Temple"
  ]

  function InitialRoutes(): Routes
  {
    map[
      1 := [
        Stop("Valasaravakkam", 13.0418, 80.1762, 0.0),
        Stop("Vadapalani", 13.0500, 80.2122, 5.0),
        Stop("Ramapuram", 13.0321, 80.1845, 10.0),
        Stop("Triplicane", 13.0604, 80.2824, 15.0),
        Stop("Porur", 13.0358, 80.1589, 20.0)
      ],
      2 := [
        Stop("Koyambedu", 13.0732, 80.1800, 0.0),
        Stop("Anna Nagar", 13.0878, 80.2105, 5.0),
        Stop("Egmore", 13.0745, 80.2602, 10.0),
        Stop("Chintadripet", 13.0749, 80.2738, 15.0)
      ],
      3 := [
        Stop("Guindy", 13.0106, 80.2206, 0.0),
        Stop("Saidapet", 13.0273, 80.2234, 5.0),
        Stop("Teynampet", 13.0441, 80.2518, 10.0),
        Stop("Mylapore", 13.0334, 80.2686, 15.0)
      ]
    ]
  }

  /** A bus as the record's defaults create it: at stop 0, no ETA, not delayed. */
  function NewBus(busId: int, routeId: int, lat: real, lon: real, speedKmph: real, overcrowded: bool): Bus
  {
    Bus(busId, routeId, lat, lon, speedKmph, "On Route", overcrowded, 0, 0.0, false)
  }

  function InitialBuses(): seq<Bus>
  {
    [
      NewBus(1, 1, 13.0418, 80.1762, 40.0, false),
      NewBus(2, 1, 13.0419, 80.1764, 35.0, true),
      NewBus(3, 2, 13.0732, 80.1800, 30.0, false),
      NewBus(4, 3, 13.0106, 80.2206, 45.0, true),
      NewBus(5, 3, 13.0107, 80.2208, 50.0, false)
    ]
  }

  // ---------------------------------------------------------------------------
  // Invariants of the store
  // ---------------------------------------------------------------------------

  /** Every route of the catalogue has at least one stop. */
  predicate RoutesNonEmpty(routes: Routes)
  {
    forall id :: id in routes ==> |routes[id]| > 0
  }

  /** The bus's route exists and its next-stop index is a valid index into it. */
  predicate OnRoute(b: Bus, routes: Routes)
  {
    b.routeId in routes && 0 <= b.nextStopIdx < |routes[b.routeId]|
  }

  predicate WellPlaced(fleet: seq<Bus>, routes: Routes)
  {
    forall i :: 0 <= i < |fleet| ==> OnRoute(fleet[i], routes)
  }

  /** The fixed catalogue and roster satisfy the store's invariants. */
  lemma InitialStateWellFormed()
    ensures RoutesNonEmpty(InitialRoutes())
    ensures WellPlaced(InitialBuses(), InitialRoutes())
  {
  }

  // ---------------------------------------------------------------------------
  // One tick of the simulation
  // ---------------------------------------------------------------------------

  function Abs(x: real): (r: real)
    ensures r >= 0.0 && (r == x || r == -x)
  {
    if x < 0.0 then -x else x
  }

  function MaxReal(a: real, b: real): (r: real)
    ensures r >= a && r >= b && (r == a || r == b)
  {
    if a >= b then a else b
  }

  /** `round(x, 1)`: the nearest tenth, halves rounded up. */
  function RoundTenth(x: real): (r: real)
    ensures 0.0 <= x ==> 0.0 <= r
    ensures x - 0.05 < r <= x + 0.05
  {
    ((x * 10.0 + 0.5).Floor as real) / 10.0
  }

  /**
   * Minutes to cover `km` at `speedKmph`, rounded to a tenth; the speed is
   * clamped to at least 1 km/h so that a zero or negative speed cannot blow up
   * the division.
   */
  function EtaMinutes(km: real, speedKmph: real): (r: real)
    requires 0.0 <= km
    ensures 0.0 <= r
    ensures speedKmph >= 1.0 ==> km * 60.0 / speedKmph - 0.05 < r <= km * 60.0 / speedKmph + 0.05
    ensures speedKmph < 1.0 ==> km * 60.0 - 0.05 < r <= km * 60.0 + 0.05
  {
    var speed := MaxReal(speedKmph, 1.0);
    assert 0.0 <= km / speed * 60.0 by {
      assert 0.0 <= km / speed;
    }
    assert km / speed * 60.0 == km * 60.0 / speed;
    RoundTenth(km / speed * 60.0)
  }

  predicate Reached(b: Bus, s: Stop)
  {
    Abs(s.lat - b.lat) < ArrivalThreshold && Abs(s.lon - b.lon) < ArrivalThreshold
  }

  /**
   * The state of bus `b` after one tick on `route` on the day named `today`,
   * with `draw` the random delay flag drawn for it.
   */
  function StepBus(b: Bus, route: seq<Stop>, today: string, draw: bool, dist: Distance): (r: Bus)
    requires 0 <= b.nextStopIdx < |route|
    requires IsDistance(dist)
    // only the position, the stop index, the ETA and the delay flag change
    ensures r.(lat := b.lat, lon := b.lon, nextStopIdx := b.nextStopIdx, etaMin := b.etaMin, delayed := b.delayed) == b
    // the remaining delta to the target stop shrinks to 97% of what it was
    ensures var s := route[b.nextStopIdx];
      s.lat - r.lat == (1.0 - MoveFraction) * (s.lat - b.lat) &&
      s.lon - r.lon == (1.0 - MoveFraction) * (s.lon - b.lon)
    // the index stays valid and advances by one (cyclically) exactly on arrival
    ensures 0 <= r.nextStopIdx < |route|
    ensures Reached(b, route[b.nextStopIdx]) ==> r.nextStopIdx == (b.nextStopIdx + 1) % |route|
    ensures !Reached(b, route[b.nextStopIdx]) ==> r.nextStopIdx == b.nextStopIdx
    // the ETA is measured to the target held before the arrival check
    ensures var s := route[b.nextStopIdx];
      r.etaMin == EtaMinutes(dist(r.lat, r.lon, s.lat, s.lon), b.speedKmph)
                  + (if today in WeekendDays then WeekendPenalty else 0.0)
                  + (if today in FestivalDays then FestivalPenalty else 0.0)
    ensures 0.0 <= r.etaMin
    // calendar overrides force the delay flag; otherwise it is the random draw
    ensures today in WeekendDays || today in FestivalDays ==> r.delayed
    ensures today !in WeekendDays && today !in FestivalDays ==> r.delayed == draw
  {
    var next := route[b.nextStopIdx];
    var latDiff := next.lat - b.lat;
    var lonDiff := next.lon - b.lon;
    var moved := b.(lat := b.lat + latDiff * MoveFraction, lon := b.lon + lonDiff * MoveFraction);
    var advanced :=
      if Abs(latDiff) < ArrivalThreshold && Abs(lonDiff) < ArrivalThreshold
      then moved.(nextStopIdx := (b.nextStopIdx + 1) % |route|)
      else moved;
    var timed := advanced.(
      etaMin := EtaMinutes(dist(moved.lat, moved.lon, next.lat, next.lon), b.speedKmph),
      delayed := draw);
    var weekend :=
      if today in WeekendDays then timed.(delayed := true, etaMin := timed.etaMin + WeekendPenalty)
      else timed;
    if today in FestivalDays then weekend.(delayed := true, etaMin := weekend.etaMin + FestivalPenalty)
    else weekend
  }

  /** The whole roster after one tick; bus i uses the draw `draws(i)`. */
  function TickAll(fleet: seq<Bus>, routes: Routes, today: string, draws: nat -> bool, dist: Distance): (r: seq<Bus>)
    requires WellPlaced(fleet, routes)
    requires IsDistance(dist)
    ensures |r| == |fleet|
    // every bus takes its own step
    ensures forall i :: 0 <= i < |r| ==>
      r[i] == StepBus(fleet[i], routes[fleet[i].routeId], today, draws(i), dist)
    ensures WellPlaced(r, routes)
    ensures forall i :: 0 <= i < |r| ==>
      r[i].busId == fleet[i].busId && r[i].routeId == fleet[i].routeId &&
      r[i].overcrowded == fleet[i].overcrowded && r[i].speedKmph == fleet[i].speedKmph
    ensures forall i :: 0 <= i < |r| ==> 0.0 <= r[i].etaMin
    ensures today in WeekendDays ==> forall i :: 0 <= i < |r| ==> r[i].delayed
  {
    var r := seq(|fleet|, i requires 0 <= i < |fleet| && WellPlaced(fleet, routes) =>
      StepBus(fleet[i], routes[fleet[i].routeId], today, draws(i), dist));
    assert forall i :: 0 <= i < |r| ==> r[i] == StepBus(fleet[i], routes[fleet[i].routeId], today, draws(i), dist);
    r
  }

  // ---------------------------------------------------------------------------
  // The calendar
  // ---------------------------------------------------------------------------

  datatype Weekday = Monday | Tuesday | Wednesday | Thursday | Friday | Saturday | Sunday

  /** The full weekday name, as `strftime("%A")` gives it. */
  function DayName(d: Weekday): (r: string)
    ensures r in WeekendDays <==> d == Saturday || d == Sunday
    // no weekday name is a festival name: the festival override never fires
    ensures r !in FestivalDays
  {
    match d
    case Monday => "Monday"
    case Tuesday => "Tuesday"
    case Wednesday => "Wednesday"
    case Thursday => "Thursday"
    case Friday => "Friday"
    case Saturday => "Saturday"
    case Sunday => "Sunday"
  }

  /** One tick's inputs: the weekday and the delay draw of each bus. */
  datatype TickInput = TickInput(today: Weekday, draws: nat -> bool)

  /** The roster after running the ticks `inputs` in order. */
  function Simulate(fleet: seq<Bus>, routes: Routes, inputs: seq<TickInput>, dist: Distance): (r: seq<Bus>)
    requires WellPlaced(fleet, routes)
    requires IsDistance(dist)
    ensures |r| == |fleet|
    ensures WellPlaced(r, routes)
    ensures forall i :: 0 <= i < |r| ==>
      r[i].busId == fleet[i].busId && r[i].routeId == fleet[i].routeId && r[i].overcrowded == fleet[i].overcrowded
    decreases |inputs|
  {
    if inputs == [] then fleet
    else
      var next := TickAll(fleet, routes, DayName(inputs[0].today), inputs[0].draws, dist);
      Simulate(next, routes, inputs[1..], dist)
  }

  /**
   * After any number of ticks every bus's next-stop index is still within its
   * route, and every ETA is non-negative once at least one tick has run.
   */
  lemma {:induction false} SimulateKeepsIndexInRoute(inputs: seq<TickInput>, dist: Distance)
    requires IsDistance(dist)
    ensures WellPlaced(InitialBuses(), InitialRoutes())
    ensures var r := Simulate(InitialBuses(), InitialRoutes(), inputs, dist);
      forall i :: 0 <= i < |r| ==>
        0 <= r[i].nextStopIdx < |InitialRoutes()[r[i].routeId]|
  {
    InitialStateWellFormed();
  }

  /** Every tick leaves every ETA non-negative. */
  lemma {:induction false} SimulateEtaNonNegative(fleet: seq<Bus>, routes: Routes, inputs: seq<TickInput>, dist: Distance)
    requires WellPlaced(fleet, routes)
    requires IsDistance(dist)
    requires forall i :: 0 <= i < |fleet| ==> 0.0 <= fleet[i].etaMin
    ensures var r := Simulate(fleet, routes, inputs, dist);
      forall i :: 0 <= i < |r| ==> 0.0 <= r[i].etaMin
    decreases |inputs|
  {
    if inputs != [] {
      var next := TickAll(fleet, routes, DayName(inputs[0].today), inputs[0].draws, dist);
      assert Simulate(fleet, routes, inputs, dist) == Simulate(next, routes, inputs[1..], dist);
      SimulateEtaNonNegative(next, routes, inputs[1..], dist);
    }
  }

  /**
   * On a real weekday the tick adds exactly the weekend penalty on weekends and
   * nothing otherwise: the +10 festival branch is unreachable.
   */
  lemma WeekdayPenalty(b: Bus, route: seq<Stop>, d: Weekday, draw: bool, dist: Distance)
    requires 0 <= b.nextStopIdx < |route|
    requires IsDistance(dist)
    ensures var r := StepBus(b, route, DayName(d), draw, dist);
      var s := route[b.nextStopIdx];
      var base := EtaMinutes(dist(r.lat, r.lon, s.lat, s.lon), b.speedKmph);
      && (d == Saturday || d == Sunday ==> r.delayed && r.etaMin == base + 5.0)
      && (d != Saturday && d != Sunday ==> r.delayed == draw && r.etaMin == base)
  {
  }

  /**
   * The first tick of bus 1, which starts exactly on stop 0 of route 1 on a
   * weekday with no random delay: it arrives at once, moves to index 1, and its
   * ETA is measured to stop 0 (the stale target), which is 0.0 minutes away.
   */
  lemma FirstTickOfBusOne(dist: Distance)
    requires IsDistance(dist)
    requires dist(13.0418, 80.1762, 13.0418, 80.1762) == 0.0
    ensures var r := StepBus(InitialBuses()[0], InitialRoutes()[1], DayName(Monday), false, dist);
      r.nextStopIdx == 1 && r.etaMin == 0.0 && r.lat == 13.0418 && r.lon == 80.1762 && !r.delayed
  {
  }

  // ---------------------------------------------------------------------------
  // Lookup
  // ---------------------------------------------------------------------------

  /** The index of the first bus with id `busId`, if any. */
  function FindBus(fleet: seq<Bus>, busId: int): (r: Option<nat>)
    ensures r.None? <==> forall j :: 0 <= j < |fleet| ==> fleet[j].busId != busId
    ensures r.Some? ==> r.value < |fleet| && fleet[r.value].busId == busId
    ensures r.Some? ==> forall j :: 0 <= j < r.value ==> fleet[j].busId != busId
    decreases |fleet|
  {
    if fleet == [] then None
    else if fleet[0].busId == busId then Some(0)
    else match FindBus(fleet[1..], busId)
      case None => None
      case Some(k) => Some(k + 1)
  }

  /** The first bus with id `busId`, if any. */
  function BusWithId(fleet: seq<Bus>, busId: int): (r: Option<Bus>)
    ensures r.None? <==> forall j :: 0 <= j < |fleet| ==> fleet[j].busId != busId
    ensures r.Some? ==> r.value in fleet && r.value.busId == busId
    ensures r.Some? <==> FindBus(fleet, busId).Some?
    ensures r.Some? ==> r.value == fleet[FindBus(fleet, busId).value]
  {
    match FindBus(fleet, busId)
    case None => None
    case Some(k) => Some(fleet[k])
  }

  /**
   * Setting the overcrowded flag of a bus that exists and then looking it up
   * shows the new flag with every other field as it was.
   */
  lemma {:induction false} OvercrowdedThenLookup(fleet: seq<Bus>, busId: int, flag: bool)
    requires FindBus(fleet, busId).Some?
    ensures var k := FindBus(fleet, busId).value;
      BusWithId(fleet[k := fleet[k].(overcrowded := flag)], busId) == Some(fleet[k].(overcrowded := flag))
  {
    var k := FindBus(fleet, busId).value;
    var updated := fleet[k := fleet[k].(overcrowded := flag)];
    assert updated[k].busId == busId;
    assert forall j :: 0 <= j < k ==> updated[j].busId != busId;
  }

  // ---------------------------------------------------------------------------
  // Counting and the admin overview
  // ---------------------------------------------------------------------------

  predicate IsDelayed(b: Bus) { b.delayed }

  predicate IsOvercrowded(b: Bus) { b.overcrowded }

  /** The number of buses of `fleet` that `flagged` holds of. */
  function CountFlagged(fleet: seq<Bus>, flagged: Bus -> bool): (n: nat)
    ensures n <= |fleet|
    ensures n == 0 <==> forall i :: 0 <= i < |fleet| ==> !flagged(fleet[i])
    ensures n == |fleet| <==> forall i :: 0 <= i < |fleet| ==> flagged(fleet[i])
    decreases |fleet|
  {
    if fleet == [] then 0
    else (if flagged(fleet[0]) then 1 else 0) + CountFlagged(fleet[1..], flagged)
  }

  /** Replacing one bus changes the count by the difference in its flag. */
  lemma {:induction false} CountAfterReplace(fleet: seq<Bus>, k: nat, b: Bus, flagged: Bus -> bool)
    requires k < |fleet|
    ensures CountFlagged(fleet[k := b], flagged) ==
      CountFlagged(fleet, flagged) - (if flagged(fleet[k]) then 1 else 0) + (if flagged(b) then 1 else 0)
    decreases |fleet|
  {
    if k > 0 {
      assert fleet[k := b][1..] == fleet[1..][k - 1 := b];
      CountAfterReplace(fleet[1..], k - 1, b, flagged);
    } else {
      assert fleet[k := b][1..] == fleet[1..];
    }
  }

  /** A weekend tick leaves every bus of the roster delayed. */
  lemma WeekendTickDelaysAll(fleet: seq<Bus>, routes: Routes, draws: nat -> bool, dist: Distance)
    requires WellPlaced(fleet, routes)
    requires IsDistance(dist)
    ensures CountFlagged(TickAll(fleet, routes, DayName(Saturday), draws, dist), IsDelayed) == |fleet|
    ensures CountFlagged(TickAll(fleet, routes, DayName(Sunday), draws, dist), IsDelayed) == |fleet|
  {
  }

  /** `today in ["Diwali", "Pongal"]` is never true of a weekday name. */
  function FestivalDelay(today: Weekday): (r: bool)
    ensures !r
  {
    DayName(today) in FestivalDays
  }

  // ---------------------------------------------------------------------------
  // The chat endpoint's number extraction
  // ---------------------------------------------------------------------------

  /**
   * `s[a..b]` is a match of `\b(\d+)\b`: a non-empty run of digits with a word
   * boundary on each side.
   */
  predicate NumberAt(s: string, a: int, b: int)
  {
    && 0 <= a < b <= |s|
    && (forall k :: a <= k < b ==> IsDigit(s[k]))
    && (a == 0 || !IsWordChar(s[a - 1]))
    && (b == |s| || !IsWordChar(s[b]))
  }

  /** A match of `\b(\d+)\b` that starts at `a` can end in one place only. */
  lemma NumberEndUnique(s: string, a: int, b: int, b': int)
    requires NumberAt(s, a, b) && NumberAt(s, a, b')
    ensures b == b'
  {
  }

  /** The leftmost match of `\b(\d+)\b` starting at or after position `i`. */
  function SearchNumber(s: string, i: nat): (r: Option<(nat, nat)>)
    requires i <= |s|
    ensures r.Some? ==> i <= r.value.0 && NumberAt(s, r.value.0, r.value.1)
    ensures r.Some? ==> forall a, b :: i <= a < r.value.0 ==> !NumberAt(s, a, b)
    ensures r.None? ==> forall a, b :: i <= a ==> !NumberAt(s, a, b)
    decreases |s| - i
  {
    if i == |s| then None
    else
      var e := SkipDigits(s, i);
      if e > i && (i == 0 || !IsWordChar(s[i - 1])) && (e == |s| || !IsWordChar(s[e])) then
        Some((i, e))
      else
        assert forall b :: !NumberAt(s, i, b);
        SearchNumber(s, i + 1)
  }

  /** The search finds exactly the leftmost match. */
  lemma SearchFindsLeftmost(s: string)
    ensures forall a, b ::
              && NumberAt(s, a, b)
              && (forall a', b' :: 0 <= a' < a ==> !NumberAt(s, a', b'))
              ==> SearchNumber(s, 0) == Some((a, b))
  {
    forall a, b | NumberAt(s, a, b) && (forall a', b' :: 0 <= a' < a ==> !NumberAt(s, a', b'))
      ensures SearchNumber(s, 0) == Some((a, b))
    {
      var found := SearchNumber(s, 0);
      assert found.Some?;
      var (a0, b0) := found.value;
      assert a0 == a;
      NumberEndUnique(s, a, b, b0);
    }
  }

  /** The bus id asked about in a chat query, if the query names one. */
  function QueryBusId(query: string): (r: Option<nat>)
    ensures r.None? <==> forall a, b :: !NumberAt(Lower(query), a, b)
    // the id is the value of the leftmost standalone number
    ensures forall a, b ::
              && NumberAt(Lower(query), a, b)
              && (forall a', b' :: 0 <= a' < a ==> !NumberAt(Lower(query), a', b'))
              ==> r == Some(DigitsValue(Lower(query)[a..b]))
  {
    var q := Lower(query);
    SearchFindsLeftmost(q);
    match SearchNumber(q, 0)
    case None => None
    case Some((a, b)) => Some(DigitsValue(q[a..b]))
  }

  /** The chat endpoint's answer for `query` over the roster `fleet`. */
  function ChatAbout(fleet: seq<Bus>, query: string): (r: ChatReply)
    ensures r == NotUnderstood <==> QueryBusId(query).None?
    ensures r.NoInformation? ==>
      && QueryBusId(query) == Some(r.busId)
      && forall j :: 0 <= j < |fleet| ==> fleet[j].busId != r.busId
    ensures r.BusStatus? ==>
      && QueryBusId(query) == Some(r.busId)
      && FindBus(fleet, r.busId).Some?
      && var b := fleet[FindBus(fleet, r.busId).value];
         b.status == r.status && b.etaMin == r.etaMin && b.overcrowded == r.overcrowded
    ensures QueryBusId(query).Some? && FindBus(fleet, QueryBusId(query).value).Some? ==> r.BusStatus?
  {
    match QueryBusId(query)
    case None => NotUnderstood
    case Some(id) =>
      match BusWithId(fleet, id)
      case None => NoInformation(id)
      case Some(b) => BusStatus(id, b.status, b.etaMin, b.overcrowded)
  }

  /** A query that spells a bus id in digits between non-word characters finds it. */
  lemma ChatFindsRenderedId(fleet: seq<Bus>, id: nat)
    ensures var q := "where is bus " + NatToString(id) + "?";
      ChatAbout(fleet, q) == match BusWithId(fleet, id)
        case None => NoInformation(id)
        case Some(b) => BusStatus(id, b.status, b.etaMin, b.overcrowded)
  {
    var digits := NatToString(id);
    RenderedQuery(digits);
    NatToStringRoundTrip(id);
    assert QueryBusId("where is bus " + digits + "?") == Some(id);
  }

  /** The query of `ChatFindsRenderedId`: lower case already, with its only number at 13. */
  lemma RenderedQuery(digits: string)
    requires IsDigitWord(digits)
    ensures var q := "where is bus " + digits + "?";
      && Lower(q) == q
      && NumberAt(q, 13, 13 + |digits|)
      && (forall a, b :: 0 <= a < 13 ==> !NumberAt(q, a, b))
      && q[13..13 + |digits|] == digits
  {
    var prefix := "where is bus ";
    var q := prefix + digits + "?";
    var n := |digits|;
    assert |prefix| == 13;
    assert forall i :: 0 <= i < 13 ==> q[i] == prefix[i];
    assert forall i :: 0 <= i < n ==> q[13 + i] == digits[i];
    assert q[12] == ' ' && q[13 + n] == '?';
    forall i | 0 <= i < |q|
      ensures !IsUpper(q[i])
    {
      if i < 13 {
        assert !IsUpper(prefix[i]);
      } else if i < 13 + n {
        assert IsDigit(digits[i - 13]);
      }
    }
    assert Lower(q) == q;
    forall a, b | 0 <= a < 13
      ensures !NumberAt(q, a, b)
    {
      assert !IsDigit(prefix[a]);
    }
    assert q[13..13 + n] == digits;
  }

  // ---------------------------------------------------------------------------
  // Landmark aliases
  // ---------------------------------------------------------------------------

  /** The display name of a stop: its landmark alias when it has one. */
  function Alias(name: string): (r: string)
    ensures name in Landmarks ==> r == Landmarks[name]
    ensures name !in Landmarks ==> r == name
    // no alias is itself aliased, so aliasing twice is aliasing once
    ensures r !in Landmarks
  {
    if name in Landmarks then Landmarks[name] else name
  }

  function AliasStop(s: Stop): Stop
  {
    s.(name := Alias(s.name))
  }

  /** A route with every stop renamed through the landmark table. */
  function AliasStops(stops: seq<Stop>): (r: seq<Stop>)
    ensures |r| == |stops|
    ensures forall i :: 0 <= i < |r| ==>
      r[i].lat == stops[i].lat && r[i].lon == stops[i].lon &&
      r[i].scheduledTime == stops[i].scheduledTime && r[i].name == Alias(stops[i].name)
    ensures forall i :: 0 <= i < |r| ==> r[i].name !in Landmarks
  {
    seq(|stops|, i requires 0 <= i < |stops| => AliasStop(stops[i]))
  }

  lemma AliasStopsIdempotent(stops: seq<Stop>)
    ensures AliasStops(AliasStops(stops)) == AliasStops(stops)
  {
    var once := AliasStops(stops);
    assert forall i :: 0 <= i < |once| ==> AliasStop(once[i]) == once[i];
  }

  // ---------------------------------------------------------------------------
  // The in-memory store
  // ---------------------------------------------------------------------------

  /** One bus's tick, performed field by field as the update loop does it. */
  method MoveBus(b: Bus, route: seq<Stop>, today: string, draw: bool, dist: Distance) returns (bus: Bus)
    requires 0 <= b.nextStopIdx < |route|
    requires IsDistance(dist)
    ensures bus == StepBus(b, route, today, draw, dist)
  {
    bus := b;
    var nextStop := route[bus.nextStopIdx];
    var latDiff := nextStop.lat - bus.lat;
    var lonDiff := nextStop.lon - bus.lon;
    bus := bus.(lat := bus.lat + latDiff * MoveFraction);
    bus := bus.(lon := bus.lon + lonDiff * MoveFraction);
    if Abs(latDiff) < ArrivalThreshold && Abs(lonDiff) < ArrivalThreshold {
      bus := bus.(nextStopIdx := (bus.nextStopIdx + 1) % |route|);
    }
    var km := dist(bus.lat, bus.lon, nextStop.lat, nextStop.lon);
    bus := bus.(etaMin := EtaMinutes(km, bus.speedKmph));
    bus := bus.(delayed := draw);
    if today in WeekendDays {
      bus := bus.(delayed := true, etaMin := bus.etaMin + WeekendPenalty);
    }
    if today in FestivalDays {
      bus := bus.(delayed := true, etaMin := bus.etaMin + FestivalPenalty);
    }
  }

  class Store {
    var routes: Routes
    var buses: seq<Bus>
    var complaints: seq<Complaint>
    var sosAlerts: seq<SosAlert>

    ghost predicate Valid()
      reads this
    {
      RoutesNonEmpty(routes) && WellPlaced(buses, routes)
    }

    constructor ()
      ensures Valid()
      ensures routes == InitialRoutes() && buses == InitialBuses()
      ensures complaints == [] && sosAlerts == []
    {
      routes := InitialRoutes();
      buses := InitialBuses();
      complaints := [];
      sosAlerts := [];
      InitialStateWellFormed();
    }

    /** The periodic tick: every bus moves, may arrive, and gets a new ETA and delay flag. */
    method UpdateBuses(today: Weekday, draws: nat -> bool, dist: Distance)
      requires Valid()
      requires IsDistance(dist)
      modifies this`buses
      ensures Valid()
      ensures buses == TickAll(old(buses), routes, DayName(today), draws, dist)
    {
      var name := DayName(today);
      var i := 0;
      while i < |buses|
        invariant 0 <= i <= |buses| == |old(buses)|
        invariant forall j :: 0 <= j < i ==>
          buses[j] == StepBus(old(buses)[j], routes[old(buses)[j].routeId], name, draws(j), dist)
        invariant forall j :: i <= j < |buses| ==> buses[j] == old(buses)[j]
      {
        var bus := MoveBus(buses[i], routes[buses[i].routeId], name, draws(i), dist);
        buses := buses[i := bus];
        i := i + 1;
      }
    }

    /** The first bus with the given id, or None for the "Bus not found" error. */
    method GetBus(busId: int) returns (r: Option<Bus>)
      ensures r == BusWithId(buses, busId)
    {
      var i := 0;
      while i < |buses|
        invariant 0 <= i <= |buses|
        invariant forall j :: 0 <= j < i ==> buses[j].busId != busId
      {
        if buses[i].busId == busId {
          return Some(buses[i]);
        }
        i := i + 1;
      }
      return None;
    }

    /**
     * Renames every stop of route `routeId` through the landmark table, in the
     * stored catalogue, and returns the renamed stops; an unknown route gives
     * no stops and changes nothing.
     */
    method GetRoute(routeId: int) returns (stops: seq<Stop>)
      requires Valid()
      modifies this`routes
      ensures Valid()
      ensures routeId !in old(routes) ==> stops == [] && routes == old(routes)
      ensures routeId in old(routes) ==>
        stops == AliasStops(old(routes)[routeId]) && routes == old(routes)[routeId := stops]
    {
      if routeId !in routes {
        return [];
      }
      ghost var original := routes[routeId];
      var n := |routes[routeId]|;
      var i := 0;
      while i < n
        invariant n == |original| && 0 <= i <= n
        invariant routes.Keys == old(routes).Keys
        invariant forall id :: id in routes && id != routeId ==> routes[id] == old(routes)[id]
        invariant |routes[routeId]| == |original|
        invariant forall j :: 0 <= j < i ==> routes[routeId][j] == AliasStop(original[j])
        invariant forall j :: i <= j < |original| ==> routes[routeId][j] == original[j]
      {
        var s := routes[routeId][i];
        if s.name in Landmarks {
          routes := routes[routeId := routes[routeId][i := s.(name := Landmarks[s.name])]];
        }
        i := i + 1;
      }
      stops := routes[routeId];
      assert stops == AliasStops(original);
      assert routes == old(routes)[routeId := stops];
    }

    /** Sets the overcrowded flag of the first bus with the given id. */
    method UpdateOvercrowded(busId: int, overcrowded: bool) returns (found: bool)
      requires Valid()
      modifies this`buses
      ensures Valid()
      ensures found <==> FindBus(old(buses), busId).Some?
      ensures found ==> var k := FindBus(old(buses), busId).value;
        buses == old(buses)[k := old(buses)[k].(overcrowded := overcrowded)]
      ensures !found ==> buses == old(buses)
    {
      var i := 0;
      while i < |buses|
        invariant 0 <= i <= |buses|
        invariant buses == old(buses)
        invariant forall j :: 0 <= j < i ==> buses[j].busId != busId
      {
        if buses[i].busId == busId {
          buses := buses[i := buses[i].(overcrowded := overcrowded)];
          return true;
        }
        i := i + 1;
      }
      return false;
    }

    /** Appends a complaint; returns the number of complaints now logged. */
    method AddComplaint(c: Complaint) returns (total: nat)
      modifies this`complaints
      ensures complaints == old(complaints) + [c]
      ensures total == |complaints|
    {
      complaints := complaints + [c];
      total := |complaints|;
    }

    /** Appends an SOS alert; returns the number of alerts now logged. */
    method TriggerSos(s: SosAlert) returns (total: nat)
      modifies this`sosAlerts
      ensures sosAlerts == old(sosAlerts) + [s]
      ensures total == |sosAlerts|
    {
      sosAlerts := sosAlerts + [s];
      total := |sosAlerts|;
    }

    /** The dashboard's counts over the roster and the two logs. */
    function AdminOverview(today: Weekday): (o: Overview)
      reads this
      ensures o.activeBuses == |buses|
      ensures o.delayed <= o.activeBuses && o.overcrowded <= o.activeBuses
      ensures o.delayed == CountFlagged(buses, IsDelayed)
      ensures o.overcrowded == CountFlagged(buses, IsOvercrowded)
      ensures o.delayed == 0 <==> forall i :: 0 <= i < |buses| ==> !buses[i].delayed
      ensures o.overcrowded == 0 <==> forall i :: 0 <= i < |buses| ==> !buses[i].overcrowded
      ensures o.complaints == |complaints| && o.sos == |sosAlerts|
      ensures !o.festivalDelay
    {
      Overview(
        |buses|,
        CountFlagged(buses, IsDelayed),
        CountFlagged(buses, IsOvercrowded),
        |complaints|,
        |sosAlerts|,
        FestivalDelay(today))
    }

    /**
     * The chat endpoint over the current roster. The contract is that of
     * `ChatAbout`, stated again over `buses` on purpose, so that a caller of
     * the endpoint reads the reply's meaning without unfolding `ChatAbout`.
     */
    function AiChat(query: string): (r: ChatReply)
      reads this
      ensures r == NotUnderstood <==> QueryBusId(query).None?
      ensures r.NoInformation? ==>
        && QueryBusId(query) == Some(r.busId)
        && forall j :: 0 <= j < |buses| ==> buses[j].busId != r.busId
      ensures r.BusStatus? ==>
        && QueryBusId(query) == Some(r.busId)
        && FindBus(buses, r.busId).Some?
        && var b := buses[FindBus(buses, r.busId).value];
           b.status == r.status && b.etaMin == r.etaMin && b.overcrowded == r.overcrowded
    {
      ChatAbout(buses, query)
    }
  }
}
