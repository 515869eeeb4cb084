/**
 * Rule-based intent and entity extraction for the voice assistant: a location
 * keyword, a time mention and a bus number are picked out of the lowercased
 * transcript by ordered first-match searches, and the intent is the first
 * intent, in table order, one of whose patterns occurs in it.
 *
 * The regular expressions of the source are modelled by what they match: the
 * intent patterns are literals or `a.*b` (an `a`, later a `b`, no newline in
 * between); the time and bus-number patterns by their leftmost match.
 */
module Nlp {
  import opened Common

  // ---------------------------------------------------------------------------
  // Intent patterns
  // ---------------------------------------------------------------------------

  datatype Pattern =
    | Literal(word: string)
    | Gap(before: string, after: string)   // the regular expression `before.*after`

  predicate NoNewline(s: string, from: int, to: int)
    requires 0 <= from <= to <= |s|
  {
    forall k :: from <= k < to ==> s[k] != '\n'
  }

  /** `re.search(p, s)` finds a match. */
  predicate Matches(p: Pattern, s: string)
  {
    match p
    case Literal(w) => Contains(s, w)
    case Gap(a, b) =>
      exists i, j :: 0 <= i <= |s| && i + |a| <= j <= |s| &&
        OccursAt(s, i, a) && OccursAt(s, j, b) && NoNewline(s, i + |a|, j)
  }

  predicate AnyMatches(patterns: seq<Pattern>, s: string)
  {
    exists p :: 0 <= p < |patterns| && Matches(patterns[p], s)
  }

  const GeneralInquiry: string := "general_inquiry"

  /** The intent table, in the insertion order the detection loop follows. */
  const IntentPatterns: seq<(string, seq<Pattern>)> := [
    ("bus_timings", [Gap("bus", "time"), Literal("timing"), Literal("schedule"), Gap("kab", "bus"),
                     Gap("time", "bus"), Literal("समय"), Gap("बस", "कब"), Literal("timing"),
                     Literal("schedule")]),
    ("bus_route", [Literal("route"), Literal("path"), Literal("way"), Literal("jaana"), Literal("rasta"),
                   Literal("कैसे जाऊं"), Literal("route"), Literal("रास्ता"), Literal("मार्ग")]),
    ("bus_arrival", [Literal("arrive"), Literal("reach"), Gap("aa", "rahi"), Literal("coming"),
                     Gap("आ", "रही"), Literal("पहुंच"), Literal("arrive")]),
    ("complaint", [Literal("problem"), Literal("issue"), Literal("complaint"), Literal("परेशानी"),
                   Literal("समस्या"), Literal("शिकायत")]),
    ("fare", [Literal("fare"), Literal("price"), Literal("cost"), Gap("kitna", "paisa"),
              Gap("कितना", "पैसा"), Literal("किराया"), Literal("दाम")])
  ]

  /** The intent the first matching row of the table names, or the default. */
  ghost predicate IsDetectedIntent(t: string, intent: string)
  {
    if forall k :: 0 <= k < |IntentPatterns| ==> !AnyMatches(IntentPatterns[k].1, t) then
      intent == GeneralInquiry
    else
      exists k :: 0 <= k < |IntentPatterns| && IntentPatterns[k].0 == intent &&
        AnyMatches(IntentPatterns[k].1, t) &&
        forall k' :: 0 <= k' < k ==> !AnyMatches(IntentPatterns[k'].1, t)
  }

  /** The nested first-match loop over the intent table. */
  method DetectIntent(t: string) returns (intent: string)
    ensures IsDetectedIntent(t, intent)
    ensures intent == GeneralInquiry || exists k :: 0 <= k < |IntentPatterns| && IntentPatterns[k].0 == intent
  {
    intent := GeneralInquiry;
    var k := 0;
    while k < |IntentPatterns|
      invariant 0 <= k <= |IntentPatterns|
      invariant intent == GeneralInquiry
      invariant forall k' :: 0 <= k' < k ==> !AnyMatches(IntentPatterns[k'].1, t)
    {
      var patterns := IntentPatterns[k].1;
      var p := 0;
      while p < |patterns|
        invariant 0 <= p <= |patterns|
        invariant intent == GeneralInquiry
        invariant forall p' :: 0 <= p' < p ==> !Matches(patterns[p'], t)
      {
        if Matches(patterns[p], t) {
          intent := IntentPatterns[k].0;
          break;
        }
        p := p + 1;
      }
      if intent != GeneralInquiry {
        return;
      }
      k := k + 1;
    }
  }

  // ---------------------------------------------------------------------------
  // Location
  // ---------------------------------------------------------------------------

  const LocationKeywords: seq<string> := [
    "big bazaar", "forum mall", "brigade road", "mg road", "majestic",
    "electronic city", "whitefield", "koramangala", "indiranagar",
    "marathahalli", "silk board", "btm layout", "jayanagar"
  ]

  /** `loc` is the first keyword, in list order, that occurs in `t`. */
  ghost predicate IsFirstLocation(t: string, loc: Option<string>)
  {
    match loc
    case None => forall k :: 0 <= k < |LocationKeywords| ==> !Contains(t, LocationKeywords[k])
    case Some(l) =>
      exists k :: 0 <= k < |LocationKeywords| && LocationKeywords[k] == l && Contains(t, l) &&
        forall k' :: 0 <= k' < k ==> !Contains(t, LocationKeywords[k'])
  }

  method DetectLocation(t: string) returns (loc: Option<string>)
    ensures IsFirstLocation(t, loc)
  {
    var k := 0;
    while k < |LocationKeywords|
      invariant 0 <= k <= |LocationKeywords|
      invariant forall k' :: 0 <= k' < k ==> !Contains(t, LocationKeywords[k'])
    {
      if Contains(t, LocationKeywords[k]) {
        return Some(LocationKeywords[k]);
      }
      k := k + 1;
    }
    return None;
  }

  // ---------------------------------------------------------------------------
  // Time mentions
  // ---------------------------------------------------------------------------

  /**
   * The time patterns: `(\d{1,2}):(\d{2})`, and `(\d{1,2})\s*(u1|u2|...)` for
   * a list of units. Every unit starts with a letter, so the `\s*` between the
   * number and the unit only ever matches the whole run of whitespace.
   */
  datatype TimePattern = ClockTime | NumberThen(units: seq<string>)

  const TimePatterns: seq<TimePattern> := [
    ClockTime,
    NumberThen(["am", "pm"]),
    NumberThen(["baje"]),
    NumberThen(["minute"]),
    NumberThen(["min"])
  ]

  predicate DigitsAt(s: string, i: nat, n: nat)
  {
    i + n <= |s| && forall k :: i <= k < i + n ==> IsDigit(s[k])
  }

  /** The end of the first unit, in order, that occurs at `j`. */
  function UnitAt(s: string, j: nat, units: seq<string>): (r: Option<nat>)
    ensures r.Some? ==> exists u :: u in units && OccursAt(s, j, u) && r.value == j + |u|
    ensures r.None? ==> forall u :: u in units ==> !OccursAt(s, j, u)
    decreases |units|
  {
    if units == [] then None
    else if OccursAt(s, j, units[0]) then Some(j + |units[0]|)
    else UnitAt(s, j, units[1..])
  }

  /** `p` matched at `i` with its leading number `n` digits long. */
  function TimeMatchWith(p: TimePattern, s: string, i: nat, n: nat): Option<nat>
  {
    if !DigitsAt(s, i, n) then None
    else match p
      case ClockTime =>
        if i + n + 3 <= |s| && s[i + n] == ':' && IsDigit(s[i + n + 1]) && IsDigit(s[i + n + 2])
        then Some(i + n + 3) else None
      case NumberThen(units) => UnitAt(s, SkipSpaces(s, i + n), units)
  }

  /**
   * The end of the match of `p` that starts at `i`, trying the two-digit
   * number before the one-digit one as the greedy `\d{1,2}` does.
   */
  function TimeMatchAt(p: TimePattern, s: string, i: nat): (r: Option<nat>)
    ensures r.Some? ==> i < r.value <= |s| && IsDigit(s[i])
  {
    match TimeMatchWith(p, s, i, 2)
    case Some(e) => Some(e)
    case None => TimeMatchWith(p, s, i, 1)
  }

  /** The leftmost match of `p` at or after `i`, as (start, end). */
  function SearchTime(p: TimePattern, s: string, i: nat): (r: Option<(nat, nat)>)
    requires i <= |s|
    ensures r.Some? ==> i <= r.value.0 < r.value.1 <= |s| && TimeMatchAt(p, s, r.value.0) == Some(r.value.1)
    ensures r.Some? ==> forall a :: i <= a < r.value.0 ==> TimeMatchAt(p, s, a).None?
    ensures r.None? ==> forall a :: i <= a <= |s| ==> TimeMatchAt(p, s, a).None?
    decreases |s| - i
  {
    var here := TimeMatchAt(p, s, i);
    if here.Some? then Some((i, here.value))
    else if i == |s| then None
    else
      var r := SearchTime(p, s, i + 1);
      assert forall a :: i <= a <= i ==> TimeMatchAt(p, s, a) == here;
      r
  }

  /** `time` is the whole match of the first pattern, in list order, that matches `t`. */
  ghost predicate IsFirstTime(t: string, time: Option<string>)
  {
    match time
    case None => forall k :: 0 <= k < |TimePatterns| ==> SearchTime(TimePatterns[k], t, 0).None?
    case Some(w) =>
      exists k :: 0 <= k < |TimePatterns| && SearchTime(TimePatterns[k], t, 0).Some? &&
        (var m := SearchTime(TimePatterns[k], t, 0).value; w == t[m.0..m.1]) &&
        forall k' :: 0 <= k' < k ==> SearchTime(TimePatterns[k'], t, 0).None?
  }

  method DetectTime(t: string) returns (time: Option<string>)
    ensures IsFirstTime(t, time)
    ensures time.Some? ==> |time.value| > 0 && IsDigit(time.value[0])
  {
    var k := 0;
    while k < |TimePatterns|
      invariant 0 <= k <= |TimePatterns|
      invariant forall k' :: 0 <= k' < k ==> SearchTime(TimePatterns[k'], t, 0).None?
    {
      var m := SearchTime(TimePatterns[k], t, 0);
      if m.Some? {
        return Some(t[m.value.0..m.value.1]);
      }
      k := k + 1;
    }
    return None;
  }

  // ---------------------------------------------------------------------------
  // Bus numbers
  // ---------------------------------------------------------------------------

  /**
   * The group of `bus\s*(\d+[a-zA-Z]*)` matched at `i`, as (start, end): after
   * "bus" and the whitespace run, a non-empty digit run and then a letter run.
   */
  function BusNumberAt(s: string, i: nat): (r: Option<(nat, nat)>)
    ensures r.Some? ==> OccursAt(s, i, "bus") && i + 3 <= r.value.0 < r.value.1 <= |s|
    ensures r.Some? ==> forall k :: i + 3 <= k < r.value.0 ==> IsSpace(s[k])
    ensures r.Some? ==> IsDigit(s[r.value.0])
    ensures r.Some? ==> forall k :: r.value.0 <= k < r.value.1 ==> IsDigit(s[k]) || IsLetter(s[k])
  {
    if !OccursAt(s, i, "bus") then None
    else
      var j := SkipSpaces(s, i + 3);
      if j == |s| || !IsDigit(s[j]) then None
      else Some((j, SkipLetters(s, SkipDigits(s, j))))
  }

  function SearchBusNumber(s: string, i: nat): (r: Option<(nat, nat)>)
    requires i <= |s|
    ensures r.Some? ==>
      exists a :: i <= a && BusNumberAt(s, a) == r && forall a' :: i <= a' < a ==> BusNumberAt(s, a').None?
    ensures r.None? ==> forall a :: i <= a <= |s| ==> BusNumberAt(s, a).None?
    decreases |s| - i
  {
    var here := BusNumberAt(s, i);
    if here.Some? then here
    else if i == |s| then None
    else
      var r := SearchBusNumber(s, i + 1);
      assert forall a :: i <= a <= i ==> BusNumberAt(s, a) == here;
      r
  }

  /** The captured bus number of the leftmost match in `t`, if any. */
  function BusNumber(t: string): (r: Option<string>)
    ensures r.Some? ==> |r.value| > 0 && IsDigit(r.value[0]) && Contains(t, r.value)
    ensures r.None? <==> forall a :: 0 <= a <= |t| ==> BusNumberAt(t, a).None?
    // the value is the group captured by the leftmost match
    ensures forall a ::
              && 0 <= a <= |t| && BusNumberAt(t, a).Some?
              && (forall a' :: 0 <= a' < a ==> BusNumberAt(t, a').None?)
              ==> r == Some(t[BusNumberAt(t, a).value.0..BusNumberAt(t, a).value.1])
  {
    match SearchBusNumber(t, 0)
    case None => None
    case Some(g) =>
      assert OccursAt(t, g.0, t[g.0..g.1]);
      Some(t[g.0..g.1])
  }

  // ---------------------------------------------------------------------------
  // The extraction
  // ---------------------------------------------------------------------------

  const EntityKeys: set<string> := {"location", "time", "bus_number"}

  /**
   * The intent and the entities of a transcript. The language is accepted and
   * not used.
   */
  method ExtractIntentAndEntities(text: string, language: string) returns (intent: string, entities: map<string, string>)
    ensures entities.Keys <= EntityKeys
    ensures IsFirstLocation(Lower(text), Get(entities, "location"))
    ensures IsFirstTime(Lower(text), Get(entities, "time"))
    ensures Get(entities, "bus_number") == BusNumber(Lower(text))
    ensures IsDetectedIntent(Lower(text), intent)
    ensures intent == GeneralInquiry || exists k :: 0 <= k < |IntentPatterns| && IntentPatterns[k].0 == intent
  {
    var textLower := Lower(text);
    entities := map[];

    var location := DetectLocation(textLower);
    if location.Some? {
      entities := entities["location" := location.value];
    }

    var time := DetectTime(textLower);
    if time.Some? {
      entities := entities["time" := time.value];
    }

    var busNumber := BusNumber(textLower);
    if busNumber.Some? {
      entities := entities["bus_number" := busNumber.value];
    }

    intent := DetectIntent(textLower);
  }

  /**
   * Priority: a transcript that asks both for a time and for a fare is a
   * timing question, because the timing row comes first in the table.
   */
  lemma TimingBeatsFare()
    ensures AnyMatches(IntentPatterns[4].1, "bus time and fare")
    ensures IsDetectedIntent("bus time and fare", "bus_timings")
  {
    var t := "bus time and fare";
    assert OccursAt(t, 0, "bus") && OccursAt(t, 4, "time");
    assert Matches(IntentPatterns[0].1[0], t);
    assert OccursAt(t, 13, "fare");
    assert Matches(IntentPatterns[4].1[0], t);
  }
}
