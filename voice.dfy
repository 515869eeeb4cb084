/**
 * The telephone voice handler of the bus tracker: the caller's recognised
 * speech is lower-cased, checked for the word "bus", and the first
 * whitespace-separated token made only of digits is looked up as a bus id.
 * The HTTP request behind the lookup is outside the model: its outcome is an
 * input, either a response (status code and JSON body with values already
 * rendered as text) or the exception the request raised.
 */
module Voice {
  import opened Common

  datatype HttpOutcome =
    | Response(status: int, body: map<string, string>)
    | Raised(reason: string)

  const Welcome: string := "Welcome to the bus tracking system. Please say your bus number."
  const NotFound: string := "Bus not found."
  const ErrorPrefix: string := "Error: "

  predicate StartsWith(s: string, prefix: string)
  {
    |prefix| <= |s| && s[..|prefix|] == prefix
  }

  /**
   * The reply for one bus id given the outcome of its HTTP lookup. A missing
   * key in a successful body raises a KeyError, whose text is the quoted key,
   * and is reported through the same "Error: " path as a failed request.
   */
  function GetBusInfo(busId: string, outcome: HttpOutcome): (r: string)
    ensures r == NotFound <==> outcome.Response? && outcome.status != 200
    ensures StartsWith(r, ErrorPrefix)
      <==> (|| outcome.Raised?
            || (outcome.status == 200 && ("location" !in outcome.body || "eta" !in outcome.body)))
    ensures outcome.Raised? ==> r == ErrorPrefix + outcome.reason
    ensures outcome.Response? && outcome.status == 200 && "location" !in outcome.body
      ==> r == ErrorPrefix + "'location'"
    ensures outcome.Response? && outcome.status == 200 && "location" in outcome.body && "eta" !in outcome.body
      ==> r == ErrorPrefix + "'eta'"
    ensures outcome.Response? && outcome.status == 200 && "location" in outcome.body && "eta" in outcome.body
      ==> && StartsWith(r, "Bus ")
          && Contains(r, busId)
          && Contains(r, outcome.body["location"])
          && Contains(r, outcome.body["eta"])
  {
    match outcome
    case Raised(reason) =>
      assert (ErrorPrefix + reason)[0] == 'E';
      ErrorPrefix + reason
    case Response(status, body) =>
      if status == 200 then
        if "location" !in body then
          assert (ErrorPrefix + "'location'")[0] == 'E';
          ErrorPrefix + "'location'"
        else if "eta" !in body then
          assert (ErrorPrefix + "'eta'")[0] == 'E';
          ErrorPrefix + "'eta'"
        else
          var r := FoundReply(busId, body["location"], body["eta"]);
          assert r[0] != ErrorPrefix[0];
          r
      else
        assert NotFound[0] == 'B';
        NotFound
  }

  /** The sentence for a bus the lookup found. */
  function FoundReply(busId: string, location: string, eta: string): (r: string)
    ensures StartsWith(r, "Bus ") && r[0] == 'B'
    ensures |r| > |NotFound|
    ensures Contains(r, busId) && Contains(r, location) && Contains(r, eta)
  {
    Fill3("Bus ", busId, " is at ", location, " and will arrive in ", eta, " minutes.")
  }

  /** The lower-cased `SpeechResult` form field; a missing or empty field reads as "". */
  function SpeechText(speechResult: Option<string>): (r: string)
    ensures speechResult.None? ==> r == ""
    ensures speechResult.Some? ==> |r| == |speechResult.value|
    ensures speechResult.Some? ==> forall i :: 0 <= i < |r| ==> r[i] == LowerChar(speechResult.value[i])
    ensures forall i :: 0 <= i < |r| ==> !IsUpper(r[i])
  {
    match speechResult
    case None => ""
    case Some(s) => if s == "" then "" else Lower(s)
  }

  /** `k` is the first token of `words` that consists of digits only. */
  ghost predicate IsFirstDigitToken(words: seq<string>, k: int)
  {
    && 0 <= k < |words|
    && IsDigitWord(words[k])
    && forall j :: 0 <= j < k ==> !IsDigitWord(words[j])
  }

  /** Only one token can be the first all-digit one. */
  lemma FirstDigitTokenIsUnique(words: seq<string>, k: int, i: int)
    requires IsFirstDigitToken(words, k)
    requires 0 <= i < |words| && IsDigitWord(words[i])
    requires forall j :: 0 <= j < i ==> !IsDigitWord(words[j])
    ensures k == i
  {
  }

  /**
   * The handler of a voice call: the reply is the welcome prompt unless the
   * speech mentions "bus" and has an all-digit token, in which case it is the
   * lookup reply for the first such token. `fetch` gives the HTTP outcome of
   * looking up each id.
   */
  method VoiceCall(speechResult: Option<string>, fetch: string -> HttpOutcome) returns (reply: string)
    ensures speechResult.None? ==> reply == Welcome
    ensures !Contains(SpeechText(speechResult), "bus") ==> reply == Welcome
    ensures Contains(SpeechText(speechResult), "bus")
              && (forall k :: 0 <= k < |Words(SpeechText(speechResult))| ==> !IsDigitWord(Words(SpeechText(speechResult))[k]))
      ==> reply == Welcome
    ensures forall k ::
              Contains(SpeechText(speechResult), "bus") && IsFirstDigitToken(Words(SpeechText(speechResult)), k)
              ==> reply == GetBusInfo(Words(SpeechText(speechResult))[k], fetch(Words(SpeechText(speechResult))[k]))
  {
    var speech := SpeechText(speechResult);
    reply := Welcome;
    if Contains(speech, "bus") {
      var words := Words(speech);
      var i := 0;
      while i < |words|
        invariant 0 <= i <= |words|
        invariant forall j :: 0 <= j < i ==> !IsDigitWord(words[j])
        invariant reply == Welcome
      {
        if IsDigitWord(words[i]) {
          reply := GetBusInfo(words[i], fetch(words[i]));
          forall k | IsFirstDigitToken(words, k)
            ensures k == i
          {
            FirstDigitTokenIsUnique(words, k, i);
          }
          return;
        }
        i := i + 1;
      }
    }
  }
}
