/**
 * The deterministic helpers of the CFO chatbot in app/chat_engine.py:
 * the keyword intent classifier, the months extractor built on the
 * pattern (\d+)\s*month, the quick-reply lookup, the keyword priority of
 * the offline stand-in model, and how a reply is assembled.
 */
module ChatEngine {
  import opened Wrappers
  import opened Text

  const ForecastIntent: string := "forecast"
  const GeneralIntent: string := "general"

  const IntentKeywords: seq<string> := ["forecast", "revenue", "growth", "projection", "predict"]

  /** The quick replies set up once by the chatbot's constructor. */
  const QuickReplies: map<string, seq<string>> := map[
    ForecastIntent := ["\U{1F4CA} Download Excel Forecast"],
    GeneralIntent := ["\U{1F4C5} Generate Forecast", "\U{1F4BC} Financial Advice"]
  ]

  const DefaultMonths: nat := 12

  // ---------------------------------------------------------------------
  // detect_intent
  // ---------------------------------------------------------------------

  /** any(word in text for word in words) */
  function AnyKeywordIn(text: string, words: seq<string>): (b: bool)
    ensures b <==> exists j :: 0 <= j < |words| && Contains(text, words[j])
  {
    if words == [] then false
    else Contains(text, words[0]) || AnyKeywordIn(text, words[1..])
  }

  function DetectIntent(message: string): (intent: string)
    ensures intent in QuickReplies
    ensures intent == ForecastIntent
      <==> exists j :: 0 <= j < |IntentKeywords| && Contains(Lower(message), IntentKeywords[j])
  {
    if AnyKeywordIn(Lower(message), IntentKeywords) then ForecastIntent else GeneralIntent
  }

  /** The quick_replies.get(intent, quick_replies["general"]) lookup. */
  function Suggestions(intent: string): (r: seq<string>)
    ensures intent in QuickReplies ==> r == QuickReplies[intent]
    ensures intent !in QuickReplies ==> r == QuickReplies[GeneralIntent]
  {
    if intent in QuickReplies then QuickReplies[intent] else QuickReplies[GeneralIntent]
  }

  /** The lookup never falls back: one option for "forecast", two for "general". */
  lemma SuggestionsForMessage(message: string)
    ensures DetectIntent(message) in QuickReplies
    ensures Suggestions(DetectIntent(message)) == QuickReplies[DetectIntent(message)]
    ensures |Suggestions(DetectIntent(message))| == if DetectIntent(message) == ForecastIntent then 1 else 2
  {
  }

  /** Keywords are found whatever their case: "Revenue PROJECTION" is a forecast request. */
  lemma IntentIgnoresCase(message: string)
    ensures DetectIntent(Lower(message)) == DetectIntent(message)
  {
    LowerIdempotent(message);
  }

  // ---------------------------------------------------------------------
  // The pattern (\d+)\s*month, ASCII only
  // ---------------------------------------------------------------------

  /** The ASCII characters Python's \s matches: \t \n \v \f \r, \x1c-\x1f and space. */
  predicate IsSpace(c: char)
  {
    '\U{9}' <= c <= '\U{D}' || '\U{1C}' <= c <= '\U{1F}' || c == ' '
  }

  /** Length of the longest run of digits starting at i. */
  function DigitRun(s: string, i: nat): (k: nat)
    requires i <= |s|
    ensures i + k <= |s|
    ensures forall j :: i <= j < i + k ==> IsDigit(s[j])
    ensures i + k == |s| || !IsDigit(s[i + k])
    decreases |s| - i
  {
    if i < |s| && IsDigit(s[i]) then 1 + DigitRun(s, i + 1) else 0
  }

  /** Length of the longest run of whitespace starting at i. */
  function SpaceRun(s: string, i: nat): (k: nat)
    requires i <= |s|
    ensures i + k <= |s|
    ensures forall j :: i <= j < i + k ==> IsSpace(s[j])
    ensures i + k == |s| || !IsSpace(s[i + k])
    decreases |s| - i
  {
    if i < |s| && IsSpace(s[i]) then 1 + SpaceRun(s, i + 1) else 0
  }

  /**
   * The pattern matches s at i with k digits and w whitespace characters:
   * every way the regular expression can succeed at position i.
   */
  predicate PatternAt(s: string, i: nat, k: nat, w: nat)
  {
    1 <= k && i + k + w + 5 <= |s| &&
    (forall j :: i <= j < i + k ==> IsDigit(s[j])) &&
    (forall j :: i + k <= j < i + k + w ==> IsSpace(s[j])) &&
    s[i + k + w..i + k + w + 5] == "month"
  }

  /** Greedy matching at i: all the digits, all the whitespace, then "month". */
  predicate MatchesAt(s: string, i: nat)
  {
    i < |s| && IsDigit(s[i]) &&
    var k := DigitRun(s, i);
    var w := SpaceRun(s, i + k);
    OccursAt(s, "month", i + k + w)
  }

  /** A match at i is unique: it takes the whole digit run and the whole whitespace run. */
  lemma PatternUnique(s: string, i: nat, k: nat, w: nat)
    requires PatternAt(s, i, k, w)
    ensures k == DigitRun(s, i) && w == SpaceRun(s, i + k)
  {
    // The character after the digits is whitespace or the 'm' of "month",
    // and the character after the whitespace is that 'm': neither run can
    // be longer, and both runs reach at least that far.
    assert s[i + k + w] == s[i + k + w..i + k + w + 5][0] == 'm';
    assert !IsDigit(s[i + k]);
    assert !IsSpace(s[i + k + w]);
  }

  /** A greedy match is a match of the pattern. */
  lemma MatchesAtSound(s: string, i: nat)
    requires MatchesAt(s, i)
    ensures PatternAt(s, i, DigitRun(s, i), SpaceRun(s, i + DigitRun(s, i)))
  {
  }

  /** Every match of the pattern at i is found by the greedy test. */
  lemma MatchesAtComplete(s: string, i: nat, k: nat, w: nat)
    requires PatternAt(s, i, k, w)
    ensures MatchesAt(s, i)
  {
    PatternUnique(s, i, k, w);
  }

  /** re.search: the first position at or after `from` where the pattern matches. */
  function FindMatch(s: string, from: nat): (r: Option<nat>)
    requires from <= |s|
    ensures r.Some? ==> from <= r.value < |s| && MatchesAt(s, r.value)
    decreases |s| - from
  {
    if from == |s| then None
    else if MatchesAt(s, from) then Some(from)
    else FindMatch(s, from + 1)
  }

  /** The search skips no match: nothing matches before what it returns, nor anywhere when it returns none. */
  lemma {:induction false} FindMatchSkipsNothing(s: string, from: nat, j: nat)
    requires from <= j < |s|
    requires FindMatch(s, from).None? || j < FindMatch(s, from).value
    ensures !MatchesAt(s, j)
    decreases j - from
  {
    assert !MatchesAt(s, from);
    assert FindMatch(s, from) == FindMatch(s, from + 1);
    if j > from {
      FindMatchSkipsNothing(s, from + 1, j);
    }
  }

  /** A match one position to the right of a digit extends to that digit. */
  lemma MatchExtendsLeft(s: string, i: nat)
    requires 0 < i && MatchesAt(s, i)
    ensures IsDigit(s[i - 1]) ==> MatchesAt(s, i - 1)
  {
    if IsDigit(s[i - 1]) {
      assert DigitRun(s, i - 1) == 1 + DigitRun(s, i);
    }
  }

  /** The leftmost match starts a digit run: group 1 holds all of its digits. */
  lemma LeftmostMatchStartsRun(s: string)
    requires FindMatch(s, 0).Some?
    ensures var i := FindMatch(s, 0).value; i == 0 || !IsDigit(s[i - 1])
  {
    var i := FindMatch(s, 0).value;
    if i > 0 {
      FindMatchSkipsNothing(s, 0, i - 1);
      MatchExtendsLeft(s, i);
    }
  }

  // ---------------------------------------------------------------------
  // extract_parameters
  // ---------------------------------------------------------------------

  datatype Parameters = Parameters(query: string, months: int)

  function ExtractParameters(message: string): (p: Parameters)
    ensures p.query == message
    ensures p.months >= 0
  {
    var text := Lower(message);
    match FindMatch(text, 0)
    case None => Parameters(message, DefaultMonths)
    case Some(i) => Parameters(message, DigitsValue(text[i..i + DigitRun(text, i)]))
  }

  /** With no digits-then-"month" anywhere in the lower-cased message, months is 12. */
  lemma ExtractDefault(message: string)
    requires forall i: nat, k: nat, w: nat :: !PatternAt(Lower(message), i, k, w)
    ensures ExtractParameters(message).months == 12
  {
    var text := Lower(message);
    var r := FindMatch(text, 0);
    if r.Some? {
      MatchesAtSound(text, r.value);
      assert false;
    }
  }

  /** The search stops at a match when no earlier position matches. */
  lemma FindMatchLeftmost(s: string, i: nat, k: nat, w: nat)
    requires PatternAt(s, i, k, w)
    requires forall i': nat, k': nat, w': nat :: i' < i ==> !PatternAt(s, i', k', w')
    ensures FindMatch(s, 0) == Some(i) && DigitRun(s, i) == k
  {
    PatternUnique(s, i, k, w);
    MatchesAtComplete(s, i, k, w);
    var r := FindMatch(s, 0);
    if r.None? || i < r.value {
      FindMatchSkipsNothing(s, 0, i);
      assert false;
    }
    if r.value < i {
      MatchesAtSound(s, r.value);
      assert false;
    }
  }

  /** Otherwise months is the number written by the digits of the leftmost match. */
  lemma ExtractLeftmost(message: string, i: nat, k: nat, w: nat)
    requires PatternAt(Lower(message), i, k, w)
    requires forall i': nat, k': nat, w': nat :: i' < i ==> !PatternAt(Lower(message), i', k', w')
    ensures AllDigits(Lower(message)[i..i + k])
    ensures ExtractParameters(message).months == DigitsValue(Lower(message)[i..i + k])
  {
    var text := Lower(message);
    FindMatchLeftmost(text, i, k, w);
    assert FindMatch(text, 0) == Some(i);
    assert ExtractParameters(message) == Parameters(message, DigitsValue(text[i..i + k]));
  }

  /** A message that opens with the pattern takes its months from the opening digits. */
  lemma ExtractAtStart(message: string, k: nat, w: nat)
    requires PatternAt(Lower(message), 0, k, w)
    ensures AllDigits(Lower(message)[..k])
    ensures ExtractParameters(message).months == DigitsValue(Lower(message)[..k])
  {
    var text := Lower(message);
    PatternUnique(text, 0, k, w);
    MatchesAtComplete(text, 0, k, w);
    assert text[0..k] == text[..k];
  }

  /** "<n> months" and "<n>month" written with the decimal digits of n give back n. */
  lemma ExtractWrittenMonths(n: nat, gap: string)
    requires gap == "" || gap == " "
    ensures ExtractParameters(DecimalString(n) + gap + "months").months == n
  {
    var digits := DecimalString(n);
    var message := digits + gap + "months";
    var k := |digits|;
    LowerOfLowercase(message);
    assert message[..k] == digits;
    assert message[k + |gap|..k + |gap| + 5] == "month";
    assert PatternAt(message, 0, k, |gap|);
    ExtractAtStart(message, k, |gap|);
    DigitsValueOfDecimal(n);
  }

  /** The pattern is searched in the lower-cased message: "6 MONTHS" asks for six months. */
  lemma ExtractIgnoresCase(message: string)
    ensures ExtractParameters(Lower(message)).months == ExtractParameters(message).months
  {
    LowerIdempotent(message);
  }

  // ---------------------------------------------------------------------
  // The offline stand-in model
  // ---------------------------------------------------------------------

  /** The three canned answers of the stand-in model. */
  datatype MockAnswer = ForecastGenerated | RevenueAnalysis | AssistantReady

  /** The content the stand-in model returns with each answer. */
  function MockAnswerContent(a: MockAnswer): string
  {
    match a
    case ForecastGenerated =>
      "\U{1F4CA} **Financial Forecast Generated!**\n\nBased on your query, I can generate a detailed revenue forecast. Would you like to download the Excel file?"
    case RevenueAnalysis =>
      "\U{1F4B0} **Revenue Analysis**\n\nYour SaaS company shows strong growth potential. I can generate a detailed forecast if you'd like!"
    case AssistantReady =>
      "\U{1F916} **AI CFO Assistant Ready!**\n\nI can help you with financial forecasting, revenue projections, and scenario analysis.\n\nWhat would you like to explore today?"
  }

  /**
   * The answer the stand-in model picks for its input dictionary: only the
   * lower-cased "user_query" entry (empty when absent) is read, and
   * "forecast"/"projection" beat "revenue"/"growth", which beat the greeting.
   */
  function MockReply(inputData: map<string, string>): (a: MockAnswer)
    ensures var q := Lower(if "user_query" in inputData then inputData["user_query"] else "");
      (a == ForecastGenerated <==> Contains(q, "forecast") || Contains(q, "projection")) &&
      (a == RevenueAnalysis <==>
        !Contains(q, "forecast") && !Contains(q, "projection") && (Contains(q, "revenue") || Contains(q, "growth")))
  {
    var userQuery := Lower(if "user_query" in inputData then inputData["user_query"] else "");
    if Contains(userQuery, "forecast") || Contains(userQuery, "projection") then ForecastGenerated
    else if Contains(userQuery, "revenue") || Contains(userQuery, "growth") then RevenueAnalysis
    else AssistantReady
  }

  /**
   * The priority holds for any dictionary holding the query; other entries,
   * such as a "knowledge_base", change nothing.
   */
  lemma MockReplyPriority(inputData: map<string, string>, query: string)
    requires "user_query" in inputData && inputData["user_query"] == query
    ensures var q := Lower(query);
      (MockReply(inputData) == ForecastGenerated <==> Contains(q, "forecast") || Contains(q, "projection")) &&
      (MockReply(inputData) == RevenueAnalysis <==>
        !Contains(q, "forecast") && !Contains(q, "projection") && (Contains(q, "revenue") || Contains(q, "growth")))
    ensures forall kb :: MockReply(map["knowledge_base" := kb, "user_query" := query]) == MockReply(inputData)
  {
  }

  /** Without a "user_query" entry the stand-in model greets. */
  lemma MockReplyWithoutQuery(inputData: map<string, string>)
    requires "user_query" !in inputData
    ensures MockReply(inputData) == AssistantReady
  {
    var q := Lower("");
    forall w: string | |w| > 0 ensures !Contains(q, w) {}
  }

  /** Whenever the stand-in model does more than greet, the message is classified as a forecast request. */
  lemma MockReplyAgreesWithIntent(message: string)
    ensures MockReply(map["user_query" := message]) != AssistantReady ==> DetectIntent(message) == ForecastIntent
    ensures DetectIntent(message) == GeneralIntent ==> MockReply(map["user_query" := message]) == AssistantReady
  {
    var q := Lower(message);
    if Contains(q, "forecast") { assert IntentKeywords[0] == "forecast"; }
    if Contains(q, "revenue") { assert IntentKeywords[1] == "revenue"; }
    if Contains(q, "growth") { assert IntentKeywords[2] == "growth"; }
    if Contains(q, "projection") { assert IntentKeywords[3] == "projection"; }
  }

  // ---------------------------------------------------------------------
  // generate_response, around the model call
  // ---------------------------------------------------------------------

  datatype ChatResponse =
    | Answered(response: string, suggestions: seq<string>, forecastQuery: string, forecastMonths: int)
    | Failed(response: string, suggestions: seq<string>, error: string)

  const KnowledgeBaseMissingText: string := "An error occurred: The knowledge base file is missing."
  const GenericErrorText: string :=
    "I'm sorry, an error occurred while processing your request. Please try again later."

  /**
   * What read_knowledge_base produced: the file's text; the KnowledgeBaseError
   * raised for a file that does not exist at the given path; or any other
   * exception of the read (permissions, a directory, bad UTF-8), by its message.
   */
  datatype KnowledgeBaseRead =
    | Read(text: string)
    | NotFound(path: string)
    | ReadFailed(message: string)

  /** str() of the KnowledgeBaseError raised for a missing file. */
  function NotFoundMessage(path: string): string
  {
    "Error: knowledge_base.txt not found at " + path
  }

  /**
   * The reply to a message, given what reading the knowledge base produced and
   * what calling the model produced (its text or the message of its exception).
   */
  function GenerateResponse(knowledgeBase: KnowledgeBaseRead, completion: Result<string, string>, message: string)
    : (r: ChatResponse)
    ensures r.Answered? <==> knowledgeBase.Read? && completion.Ok?
    ensures r.Failed? ==> r.suggestions == []
    ensures knowledgeBase.NotFound? ==>
      r == Failed(KnowledgeBaseMissingText, [], NotFoundMessage(knowledgeBase.path))
    ensures knowledgeBase.ReadFailed? ==> r == Failed(GenericErrorText, [], knowledgeBase.message)
    ensures knowledgeBase.Read? && completion.Err? ==> r == Failed(GenericErrorText, [], completion.error)
    ensures r.Answered? ==>
      r.response == completion.value &&
      r.suggestions == QuickReplies[DetectIntent(message)] &&
      r.forecastQuery == message &&
      r.forecastMonths == ExtractParameters(message).months
  {
    match knowledgeBase
    case NotFound(path) => Failed(KnowledgeBaseMissingText, [], NotFoundMessage(path))
    case ReadFailed(e) => Failed(GenericErrorText, [], e)
    case Read(_) =>
      match completion
      case Err(e) => Failed(GenericErrorText, [], e)
      case Ok(content) =>
        var intent := DetectIntent(message);
        var params := ExtractParameters(message);
        Answered(content, Suggestions(intent), params.query, params.months)
  }
}
