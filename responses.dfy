/**
 * The voice assistant's answers: an intent and the extracted location select a
 * handler, the handler looks the location up in the sample route table and
 * picks what to announce, and the answer is spoken in Hindi when the language
 * is exactly "hindi" and in English otherwise.
 *
 * Each handler is split into the facts it chooses (an `Answer`) and the
 * sentence that states them (`Say`). The random choices of a bus, a timing
 * and a number of minutes are the indices `picks` (taken modulo the length of
 * the list), so every member of a list can be chosen and nothing else can.
 */
module Responses {
  import opened Common

  datatype RouteInfo = RouteInfo(buses: seq<string>, timings: seq<string>, fare: nat)

  const SampleRoutes: map<string, RouteInfo> := map[
    "big bazaar" := RouteInfo(["22C", "45", "102"], ["10:30", "11:00", "11:30", "12:00", "12:30"], 15),
    "forum mall" := RouteInfo(["201", "500C", "G1"], ["10:15", "10:45", "11:15", "11:45", "12:15"], 20),
    "mg road" := RouteInfo(["101", "201", "301"], ["10:00", "10:20", "10:40", "11:00", "11:20"], 12)
  ]

  const ArrivalMinutes: seq<nat> := [2, 3, 5, 7, 10]

  const KnownIntents: set<string> := {"bus_timings", "bus_route", "bus_arrival", "fare", "complaint"}

  /** `random.choice` outcomes: which bus, which timing, which number of minutes. */
  datatype Picks = Picks(bus: nat, timing: nat, minutes: nat)

  function Choose<T>(xs: seq<T>, pick: nat): (r: T)
    requires |xs| > 0
    ensures r in xs
  {
    xs[pick % |xs|]
  }

  /** Every member of a list is some choice. */
  lemma ChooseReachesAll<T>(xs: seq<T>, x: T)
    requires x in xs
    ensures exists pick: nat :: Choose(xs, pick) == x
  {
    var k :| 0 <= k < |xs| && xs[k] == x;
    assert Choose(xs, k) == x;
  }

  // ---------------------------------------------------------------------------
  // What a handler chooses to say
  // ---------------------------------------------------------------------------

  datatype Answer =
    | NextBus(location: string, bus: string, timing: string)
    | TimingUnavailable(location: string)
    | Arriving(location: string, bus: string, minutes: nat)
    | ArrivalUnavailable
    | RouteAdvice(location: string)
    | FareIs(location: string, rupees: nat)
    | FareRange
    | ComplaintRegistered
    | Help
    | Failure

  /** Every fact an answer states comes from the route table. */
  predicate Grounded(a: Answer)
  {
    match a
    case NextBus(l, b, t) => l in SampleRoutes && b in SampleRoutes[l].buses && t in SampleRoutes[l].timings
    case Arriving(l, b, m) => l in SampleRoutes && b in SampleRoutes[l].buses && m in ArrivalMinutes
    case FareIs(l, f) => l in SampleRoutes && f == SampleRoutes[l].fare
    case _ => true
  }

  function TimingAnswer(location: string, picks: Picks): (a: Answer)
    ensures Grounded(a)
    ensures location in SampleRoutes <==> a.NextBus?
    ensures a.NextBus? ==> a.location == location
    ensures location !in SampleRoutes ==> a == TimingUnavailable(location)
  {
    if location in SampleRoutes then
      var route := SampleRoutes[location];
      var timing := Choose(route.timings, picks.timing);
      var bus := Choose(route.buses, picks.bus);
      NextBus(location, bus, timing)
    else
      TimingUnavailable(location)
  }

  function ArrivalAnswer(location: string, picks: Picks): (a: Answer)
    ensures Grounded(a)
    ensures location in SampleRoutes <==> a.Arriving?
    ensures a.Arriving? ==> a.location == location
    ensures location !in SampleRoutes ==> a == ArrivalUnavailable
  {
    if location in SampleRoutes then
      var minutes := Choose(ArrivalMinutes, picks.minutes);
      var bus := Choose(SampleRoutes[location].buses, picks.bus);
      Arriving(location, bus, minutes)
    else
      ArrivalUnavailable
  }

  function FareAnswer(location: string): (a: Answer)
    ensures Grounded(a)
    ensures location in SampleRoutes <==> a.FareIs?
    ensures a.FareIs? ==> a.location == location && a.rupees in {12, 15, 20}
    ensures location !in SampleRoutes ==> a == FareRange
  {
    if location in SampleRoutes then FareIs(location, SampleRoutes[location].fare) else FareRange
  }

  /** The intent's handler applied to the location. */
  function AnswerFor(intent: string, location: string, picks: Picks): (a: Answer)
    ensures Grounded(a)
    ensures intent !in KnownIntents ==> a == Help
    ensures intent == "bus_timings" ==> a.NextBus? || a == TimingUnavailable(location)
    ensures intent == "bus_arrival" ==> a.Arriving? || a == ArrivalUnavailable
    ensures intent == "bus_route" ==> a == RouteAdvice(location)
    ensures intent == "fare" ==> a.FareIs? || a == FareRange
    ensures intent == "complaint" ==> a == ComplaintRegistered
    // an unknown location never yields a table fact
    ensures location !in SampleRoutes ==> !a.NextBus? && !a.Arriving? && !a.FareIs?
  {
    if intent == "bus_timings" then TimingAnswer(location, picks)
    else if intent == "bus_route" then RouteAdvice(location)
    else if intent == "bus_arrival" then ArrivalAnswer(location, picks)
    else if intent == "fare" then FareAnswer(location)
    else if intent == "complaint" then ComplaintRegistered
    else Help
  }

  // ---------------------------------------------------------------------------
  // The sentences
  // ---------------------------------------------------------------------------

  /** A sentence in both languages the assistant speaks. */
  datatype Bilingual = Bilingual(english: string, hindi: string)

  /** The two renderings are different texts. */
  predicate Distinct(s: Bilingual)
  {
    s.english != s.hindi
  }

  /** Both renderings of a sentence contain `w`. */
  predicate Names(s: Bilingual, w: string)
  {
    Contains(s.english, w) && Contains(s.hindi, w)
  }

  /** `get_timing_response` for a location in the table. */
  function NextBusSentences(location: string, bus: string, timing: string): (s: Bilingual)
    ensures Names(s, location) && Names(s, bus) && Names(s, timing)
    ensures Distinct(s)
  {
    var english := Fill3("Yes, the next bus ", bus, " from ", location, " will arrive at ", timing, ". Have a safe journey!");
    var hindi := Fill3("हाँ, ", location, " से अगली बस ", bus, " नंबर ", timing, " बजे आएगी। शुभ यात्रा!");
    assert english[0] != hindi[0];
    Bilingual(english, hindi)
  }

  /** `get_timing_response` for a location not in the table. */
  function TimingUnavailableSentences(location: string): (s: Bilingual)
    ensures Names(s, location)
    ensures Distinct(s)
  {
    var english := Fill1("Sorry, information about ", location, " is not available right now. Please try another location.");
    var hindi := Fill1("माफ करिए, ", location, " के बारे में जानकारी अभी उपलब्ध नहीं है। कृपया दूसरी जगह बताइए।");
    assert english[0] != hindi[0];
    Bilingual(english, hindi)
  }

  /** `get_arrival_response` for a location in the table. */
  function ArrivingSentences(location: string, bus: string, minutes: nat): (s: Bilingual)
    ensures Names(s, location) && Names(s, bus) && Names(s, NatToString(minutes))
    ensures Distinct(s)
  {
    var english := Fill3("Yes, bus number ", bus, " will reach ", location, " in ", NatToString(minutes), " minutes.");
    var hindi := Fill3("हाँ, बस ", bus, " नंबर अभी ", NatToString(minutes), " मिनट में ", location, " पहुंचने वाली है।");
    assert english[0] != hindi[0];
    Bilingual(english, hindi)
  }

  /** `get_route_response`. */
  function RouteSentences(location: string): (s: Bilingual)
    ensures Names(s, location)
    ensures Distinct(s)
  {
    var english := Fill1("To go to ", location, ", you can take bus number 101, 201, or 301 from the metro station.");
    var hindi := Fill1("", location, " जाने के लिए मेट्रो स्टेशन से बस नंबर 101, 201, या 301 ले सकते हैं।");
    assert english[|english| - 1] != hindi[|hindi| - 1];
    Bilingual(english, hindi)
  }

  /** `get_fare_response` for a location in the table. */
  function FareSentences(location: string, rupees: nat): (s: Bilingual)
    ensures Names(s, location) && Names(s, NatToString(rupees))
    ensures Distinct(s)
  {
    var english := Fill2("The fare to ", location, " is ", NatToString(rupees), " rupees.");
    var hindi := Fill2("", location, " का किराया ", NatToString(rupees), " रुपए है।");
    assert english[|english| - 1] != hindi[|hindi| - 1];
    Bilingual(english, hindi)
  }

  // The fixed sentences.
  const ArrivalUnavailableSentences: Bilingual := Bilingual(
    "Sorry, exact bus information is not available at this time.",
    "माफ करिए, इस समय बस की सटीक जानकारी उपलब्ध नहीं है।")
  const FareRangeSentences: Bilingual := Bilingual(
    "Generally, the fare ranges between 10 to 25 rupees.",
    "सामान्यतः किराया 10 से 25 रुपए के बीच होता है।")
  const ComplaintSentences: Bilingual := Bilingual(
    "Your complaint has been registered. Our team will take action on it soon. Thank you!",
    "आपकी शिकायत दर्ज हो गई है। हमारी टीम जल्दी ही इसपर कार्रवाई करेगी। धन्यवाद!")
  const HelpSentences: Bilingual := Bilingual(
    "I can help you with bus information. Would you like to know about bus timings, routes, or fare?",
    "मैं बस की जानकारी देने में आपकी मदद कर सकता हूँ। बस का समय, रूट, या किराया जानना चाहते हैं?")
  /** `get_error_response`. */
  const FailureSentences: Bilingual := Bilingual(
    "Sorry, there was some issue. Please try again.",
    "माफ करिए, कुछ समस्या हुई है। कृपया दोबारा कोशिश करें।")

  /** Each fixed sentence differs from its translation (they differ in length). */
  lemma FixedSentencesDiffer()
    ensures Distinct(ArrivalUnavailableSentences)
    ensures Distinct(FareRangeSentences)
    ensures Distinct(ComplaintSentences)
    ensures Distinct(HelpSentences)
    ensures Distinct(FailureSentences)
  {
    assert |ArrivalUnavailableSentences.english| != |ArrivalUnavailableSentences.hindi|;
    assert |FareRangeSentences.english| != |FareRangeSentences.hindi|;
    assert |ComplaintSentences.english| != |ComplaintSentences.hindi|;
    assert |HelpSentences.english| != |HelpSentences.hindi|;
    assert |FailureSentences.english| != |FailureSentences.hindi|;
  }

  /**
   * The sentences of an answer. Both name every fact the answer carries, and
   * the two renderings are never the same text.
   */
  function Sentences(a: Answer): (s: Bilingual)
    ensures a.NextBus? ==> Names(s, a.bus) && Names(s, a.location) && Names(s, a.timing)
    ensures a.Arriving? ==> Names(s, a.bus) && Names(s, a.location) && Names(s, NatToString(a.minutes))
    ensures a.FareIs? ==> Names(s, a.location) && Names(s, NatToString(a.rupees))
    ensures a.TimingUnavailable? || a.RouteAdvice? ==> Names(s, a.location)
    ensures Distinct(s)
  {
    match a
    case NextBus(l, b, t) => NextBusSentences(l, b, t)
    case TimingUnavailable(l) => TimingUnavailableSentences(l)
    case Arriving(l, b, m) => ArrivingSentences(l, b, m)
    case ArrivalUnavailable => FixedSentencesDiffer(); ArrivalUnavailableSentences
    case RouteAdvice(l) => RouteSentences(l)
    case FareIs(l, f) => FareSentences(l, f)
    case FareRange => FixedSentencesDiffer(); FareRangeSentences
    case ComplaintRegistered => FixedSentencesDiffer(); ComplaintSentences
    case Help => FixedSentencesDiffer(); HelpSentences
    case Failure => FixedSentencesDiffer(); FailureSentences
  }

  /**
   * The answer in the caller's language: the Hindi sentence exactly when the
   * language is "hindi", the English sentence exactly when it is anything else.
   */
  function Say(a: Answer, language: string): (r: string)
    ensures r == Sentences(a).hindi <==> language == "hindi"
    ensures r == Sentences(a).english <==> language != "hindi"
  {
    if language == "hindi" then Sentences(a).hindi else Sentences(a).english
  }

  // ---------------------------------------------------------------------------
  // The entry point
  // ---------------------------------------------------------------------------

  /**
   * The reply text and its language for an intent and its entities. A missing
   * location is the empty string.
   */
  function GetBusInfoResponse(intent: string, entities: map<string, string>, language: string, picks: Picks): (r: (string, string))
    ensures r.1 == language
    ensures language == "hindi" ==> r.0 == Sentences(AnswerFor(intent, GetOr(entities, "location", ""), picks)).hindi
    ensures language != "hindi" ==> r.0 == Sentences(AnswerFor(intent, GetOr(entities, "location", ""), picks)).english
  {
    var location := GetOr(entities, "location", "");
    (Say(AnswerFor(intent, location, picks), language), language)
  }

  /** The empty location is not in the table, so a missing location falls back. */
  lemma MissingLocationFallsBack(intent: string, entities: map<string, string>, picks: Picks)
    requires "location" !in entities
    ensures var a := AnswerFor(intent, GetOr(entities, "location", ""), picks);
      !a.NextBus? && !a.Arriving? && !a.FareIs?
  {
    assert "" !in SampleRoutes;
  }

  /** Every language other than "hindi" gets exactly the English reply. */
  lemma NonHindiIsEnglish(intent: string, entities: map<string, string>, language: string, picks: Picks)
    requires language != "hindi"
    ensures GetBusInfoResponse(intent, entities, language, picks).0 ==
            GetBusInfoResponse(intent, entities, "english", picks).0
  {
  }

  /** Every table fare lies in the range the generic fare answer quotes. */
  lemma TableFaresInGenericRange(location: string)
    requires location in SampleRoutes
    ensures 10 <= SampleRoutes[location].fare <= 25
  {
  }
}
