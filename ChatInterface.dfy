/** The chat assistant: a first-match-wins classifier that extracts a customer
    identifier from free text, a lookup in a fixed three-entry catalog with a
    `DEFAULT` fallback, a response builder that falls back to topic keyword
    buckets, and the message log that a send appends to at once and the
    deferred reply appends to later. */
module ChatInterface {
  import opened Wrappers
  import opened Text
  import opened Profiles

  // ---------------------------------------------------------------------
  // The catalog
  // ---------------------------------------------------------------------

  const Sarah: Profile := Profile(
    "CUSTOMER_001", "Sarah Johnson", 9, 8, 9, "Low", "-15%",
    "This customer demonstrates excellent communication skills, high policy awareness, and cooperative behavior. Recommended for preferential rates.",
    Explanations(
      "Polite, clear communication with professional tone in all interactions.",
      "Consistently provides accurate information and responds promptly to requests.",
      "Demonstrates thorough understanding of policy terms and coverage options.",
      "Customer qualifies for good driver/customer discount due to low risk profile."))

  const Mike: Profile := Profile(
    "CUSTOMER_002", "Mike Rodriguez", 4, 3, 2, "High", "+25%",
    "Customer shows concerning communication patterns and behavior. Recommend manual review and higher premium due to elevated risk factors.",
    Explanations(
      "Frequently aggressive tone, uses evasive language when questioned about details.",
      "Multiple instances of providing inconsistent information across interactions.",
      "Limited understanding of policy implications, asks few clarifying questions.",
      "Risk-based pricing adjustment applied due to communication and behavior concerns."))

  const Sample: Profile := Profile(
    "SAMPLE_CUSTOMER", "Sample Customer", 6, 6, 5, "Medium", "Standard Rate",
    "Customer shows typical communication and behavior patterns. Standard underwriting protocols apply.",
    Explanations(
      "Average communication style with no significant red flags.",
      "Standard customer behavior patterns observed.",
      "Basic understanding of policy terms and coverage needs.",
      "No adjustment needed - standard rates apply."))

  const Catalog: map<string, Profile> :=
    map["CUSTOMER_001" := Sarah, "CUSTOMER_002" := Mike, DefaultKey := Sample]

  function LookupCustomer(id: string): (p: Profile)
    ensures p == Sarah || p == Mike || p == Sample
  {
    LookupIn(Catalog, id)
  }

  /** A near miss such as `CUSTOMER_0011` gets the `DEFAULT` record; the
      second customer is high risk with a 25% surcharge. */
  lemma LookupExamples()
    ensures LookupCustomer("CUSTOMER_0011") == Sample && Sample.customerId == "SAMPLE_CUSTOMER"
    ensures LookupCustomer("CUSTOMER_002").overallRiskLevel == "High"
    ensures LookupCustomer("CUSTOMER_002").premiumAdjustment == "+25%"
    ensures LookupCustomer("customer_001") == Sample
  {
  }

  // ---------------------------------------------------------------------
  // Extracting a customer identifier: /CUSTOMER_\d+/i, then name aliases
  // ---------------------------------------------------------------------

  const IdPrefix: string := "CUSTOMER_"

  /** A well-formed identifier: the upper-case prefix and at least one digit. */
  predicate IsCustomerId(s: string) {
    |s| > |IdPrefix| && s[..|IdPrefix|] == IdPrefix
    && forall k :: |IdPrefix| <= k < |s| ==> IsDigit(s[k])
  }

  /** The pattern matches at position `i`: the prefix in any letter case,
      followed by a digit. */
  predicate IdMatchAt(text: string, i: int) {
    0 <= i && i + |IdPrefix| < |text|
    && ToUpper(text[i..i + |IdPrefix|]) == IdPrefix
    && IsDigit(text[i + |IdPrefix|])
  }

  /** Length of the longest run of digits at the start of `s` (greedy `\d+`). */
  function DigitRun(s: string): (n: nat)
    ensures n <= |s|
    ensures forall k :: 0 <= k < n ==> IsDigit(s[k])
    ensures n < |s| ==> !IsDigit(s[n])
  {
    if s != [] && IsDigit(s[0]) then 1 + DigitRun(s[1..]) else 0
  }

  /** The leftmost position at or after `from` where the pattern matches. */
  function FirstIdMatch(text: string, from: nat): (r: Option<nat>)
    ensures r.Some? ==> from <= r.value && IdMatchAt(text, r.value)
                        && forall j :: from <= j < r.value ==> !IdMatchAt(text, j)
    ensures r.None? ==> forall j :: from <= j ==> !IdMatchAt(text, j)
    decreases |text| - from
  {
    if from + |IdPrefix| >= |text| then None
    else if IdMatchAt(text, from) then Some(from)
    else FirstIdMatch(text, from + 1)
  }

  /** The text of the match at `i`: the prefix and the whole digit run. */
  function MatchText(text: string, i: nat): string
    requires IdMatchAt(text, i)
  {
    text[i..i + |IdPrefix| + DigitRun(text[i + |IdPrefix|..])]
  }

  lemma UpperCaseDigits(s: string)
    requires forall k :: 0 <= k < |s| ==> IsDigit(s[k])
    ensures ToUpper(s) == s
  {
  }

  /** Upper-casing a match gives the canonical prefix followed by the digits
      as written. */
  lemma UpperMatchText(text: string, i: nat)
    requires IdMatchAt(text, i)
    ensures ToUpper(MatchText(text, i))
            == IdPrefix + text[i + |IdPrefix|..i + |IdPrefix| + DigitRun(text[i + |IdPrefix|..])]
    ensures IsCustomerId(ToUpper(MatchText(text, i)))
  {
    var n := |IdPrefix|;
    var d := DigitRun(text[i + n..]);
    var m := MatchText(text, i);
    var digits := text[i + n..i + n + d];
    assert m == text[i..i + n] + digits;
    assert ToUpper(m) == ToUpper(text[i..i + n]) + ToUpper(digits);
    assert forall k :: 0 <= k < d ==> digits[k] == text[i + n..][k];
    UpperCaseDigits(digits);
  }

  /** `text.match(/CUSTOMER_\d+/i)?.[0].toUpperCase()`. */
  function MatchedId(text: string): Option<string> {
    match FirstIdMatch(text, 0)
    case None => None
    case Some(i) => Some(ToUpper(MatchText(text, i)))
  }

  const SarahAlias: string := "sarah johnson"
  const MikeAlias: string := "mike rodriguez"

  /** `extractCustomerFromText`: the pattern first, then the alias names (and
      the lower-case identifier substrings), otherwise nothing. Whatever it
      returns is a well-formed identifier. */
  function ExtractCustomerFromText(text: string): (r: Option<string>)
    ensures r.Some? ==> IsCustomerId(r.value)
  {
    match FirstIdMatch(text, 0)
    case Some(i) =>
      UpperMatchText(text, i);
      Some(ToUpper(MatchText(text, i)))
    case None =>
      var lower := ToLower(text);
      if Contains(lower, SarahAlias) || Contains(lower, "customer_001") then Some("CUSTOMER_001")
      else if Contains(lower, MikeAlias) || Contains(lower, "customer_002") then Some("CUSTOMER_002")
      else None
  }

  /** The first match of the pattern decides, upper-cased, with its digits
      taken greedily and kept as written. */
  lemma ExtractFirstMatch(text: string, i: nat)
    requires IdMatchAt(text, i)
    requires forall j :: 0 <= j < i ==> !IdMatchAt(text, j)
    ensures ExtractCustomerFromText(text)
            == Some(IdPrefix + text[i + |IdPrefix|..i + |IdPrefix| + DigitRun(text[i + |IdPrefix|..])])
  {
    var r := FirstIdMatch(text, 0);
    assert r.Some? && r.value == i;
    UpperMatchText(text, i);
  }

  lemma {:induction false} LowerThenUpperString(s: string)
    ensures ToUpper(ToLower(s)) == ToUpper(s)
  {
    forall k | 0 <= k < |s| ensures UpperChar(LowerChar(s[k])) == UpperChar(s[k]) {
    }
  }

  /** A character that lower-cases to a non-letter was that character. */
  lemma LowerOfNonLetter(c: char)
    requires !IsAsciiLower(LowerChar(c))
    ensures LowerChar(c) == c
  {
  }

  lemma LowerSlice(text: string, i: nat, j: nat)
    requires i <= j <= |text|
    ensures ToLower(text[i..j]) == ToLower(text)[i..j]
  {
  }

  lemma UpperPrefix()
    ensures ToUpper("customer_") == IdPrefix
  {
    var u := ToUpper("customer_");
    assert u[0] == 'C' && u[1] == 'U' && u[2] == 'S' && u[3] == 'T' && u[4] == 'O';
    assert u[5] == 'M' && u[6] == 'E' && u[7] == 'R' && u[8] == '_';
  }

  /** Any text whose lower-case form contains an identifier-shaped substring
      such as `customer_001` matches the pattern. */
  lemma LowerIdSubstringMatches(text: string, word: string)
    requires |word| > |IdPrefix| && word[..|IdPrefix|] == "customer_" && IsDigit(word[|IdPrefix|])
    requires Contains(ToLower(text), word)
    ensures MatchedId(text).Some?
  {
    var n := |IdPrefix|;
    ContainsIff(ToLower(text), word);
    var i :| OccursAt(ToLower(text), word, i);
    var piece := text[i..i + n];
    LowerSlice(text, i, i + n);
    assert ToLower(text)[i..i + n] == word[..n];
    LowerThenUpperString(piece);
    UpperPrefix();
    assert ToUpper(piece) == IdPrefix;
    assert ToLower(text)[i + n] == word[n];
    LowerOfNonLetter(text[i + n]);
    assert IdMatchAt(text, i);
  }

  /** The pattern comes first, so the `customer_001`/`customer_002` substring
      tests beside the alias names can never decide the result. */
  lemma IdSubstringTestsNeverDecide(text: string)
    requires MatchedId(text).None?
    ensures !Contains(ToLower(text), "customer_001")
    ensures !Contains(ToLower(text), "customer_002")
  {
    if Contains(ToLower(text), "customer_001") {
      LowerIdSubstringMatches(text, "customer_001");
    }
    if Contains(ToLower(text), "customer_002") {
      LowerIdSubstringMatches(text, "customer_002");
    }
  }

  /** Without a pattern match only the alias names decide, case-insensitively,
      the first customer's alias before the second's. */
  lemma ExtractByAlias(text: string)
    requires MatchedId(text).None?
    ensures ExtractCustomerFromText(text) == Some("CUSTOMER_001")
            <==> Contains(ToLower(text), SarahAlias)
    ensures ExtractCustomerFromText(text) == Some("CUSTOMER_002")
            <==> !Contains(ToLower(text), SarahAlias) && Contains(ToLower(text), MikeAlias)
    ensures ExtractCustomerFromText(text) == None
            <==> !Contains(ToLower(text), SarahAlias) && !Contains(ToLower(text), MikeAlias)
  {
    IdSubstringTestsNeverDecide(text);
  }

  /** `Extract` and `MatchedId` agree whenever there is a pattern match. */
  lemma ExtractPrefersPattern(text: string)
    requires MatchedId(text).Some?
    ensures ExtractCustomerFromText(text) == MatchedId(text)
  {
  }

  // ---------------------------------------------------------------------
  // Responses
  // ---------------------------------------------------------------------

  /** The canned topic replies, in the order their keyword buckets are tried. */
  datatype Topic = CustomerAccount | CommunicationBehavior | RiskScoring | HelpHowTo

  datatype Response = ProfileResponse(profile: Profile) | TopicResponse(topic: Topic) | GenericResponse
  {
    /** The record attached to the reply (`analysis`), null except for a profile reply. */
    function Analysis(): Option<Profile> {
      if ProfileResponse? then Some(profile) else None
    }
  }

  /** The keyword buckets as a table, tried from first to last. */
  const TopicTable: seq<(Topic, seq<string>)> := [
    (CustomerAccount, ["customer", "account"]),
    (CommunicationBehavior, ["communication", "behavior"]),
    (RiskScoring, ["risk", "scoring"]),
    (HelpHowTo, ["help", "how"])
  ]

  predicate MentionsAny(lower: string, words: seq<string>) {
    exists w :: w in words && Contains(lower, w)
  }

  /** The topic of the first bucket one of whose keywords occurs in `lower`. */
  function FirstTopic(table: seq<(Topic, seq<string>)>, lower: string): Option<Topic> {
    if table == [] then None
    else if MentionsAny(lower, table[0].1) then Some(table[0].0)
    else FirstTopic(table[1..], lower)
  }

  /** Whatever `FirstTopic` picks is the topic of one of the table's buckets. */
  lemma {:induction false} FirstTopicFromTable(table: seq<(Topic, seq<string>)>, lower: string)
    ensures FirstTopic(table, lower).Some? ==>
              exists j :: 0 <= j < |table| && table[j].0 == FirstTopic(table, lower).value
  {
    if table != [] && !MentionsAny(lower, table[0].1) {
      FirstTopicFromTable(table[1..], lower);
      if FirstTopic(table, lower).Some? {
        var j :| 0 <= j < |table[1..]| && table[1..][j].0 == FirstTopic(table, lower).value;
        assert table[j + 1].0 == FirstTopic(table, lower).value;
      }
    } else if table != [] {
      assert table[0].0 == FirstTopic(table, lower).value;
    }
  }

  /** `FirstTopic` picks bucket `k` exactly when bucket `k` matches and no
      earlier one does. */
  lemma {:induction false} FirstTopicIsFirstMatch(table: seq<(Topic, seq<string>)>, lower: string, k: nat)
    requires k < |table|
    requires forall a, b :: 0 <= a < b < |table| ==> table[a].0 != table[b].0
    ensures FirstTopic(table, lower) == Some(table[k].0)
            <==> MentionsAny(lower, table[k].1) && forall j :: 0 <= j < k ==> !MentionsAny(lower, table[j].1)
  {
    if k > 0 && !MentionsAny(lower, table[0].1) {
      FirstTopicIsFirstMatch(table[1..], lower, k - 1);
      assert forall j :: 0 <= j < k - 1 ==> table[1..][j] == table[j + 1];
      forall j | 0 <= j < k && j != 0 ensures table[j] == table[1..][j - 1] { }
    } else if k > 0 {
      assert table[0].0 != table[k].0;
      assert FirstTopic(table, lower) == Some(table[0].0);
      assert FirstTopic(table, lower) != Some(table[k].0);
      assert !(forall j :: 0 <= j < k ==> !MentionsAny(lower, table[j].1));
    } else if !MentionsAny(lower, table[0].1) {
      FirstTopicFromTable(table[1..], lower);
      assert forall j :: 0 <= j < |table[1..]| ==> table[1..][j] == table[j + 1];
    }
  }

  /** `FirstTopic` yields nothing exactly when no bucket matches. */
  lemma {:induction false} FirstTopicNone(table: seq<(Topic, seq<string>)>, lower: string)
    ensures FirstTopic(table, lower) == None <==> forall j :: 0 <= j < |table| ==> !MentionsAny(lower, table[j].1)
  {
    if table != [] && !MentionsAny(lower, table[0].1) {
      FirstTopicNone(table[1..], lower);
      assert forall j :: 0 < j < |table| ==> table[j] == table[1..][j - 1];
    }
  }

  /** The topic chain of `generateResponse`, on the lower-cased message. */
  function TopicOf(lower: string): Option<Topic> {
    if Contains(lower, "customer") || Contains(lower, "account") then Some(CustomerAccount)
    else if Contains(lower, "communication") || Contains(lower, "behavior") then Some(CommunicationBehavior)
    else if Contains(lower, "risk") || Contains(lower, "scoring") then Some(RiskScoring)
    else if Contains(lower, "help") || Contains(lower, "how") then Some(HelpHowTo)
    else None
  }

  lemma MentionsPair(lower: string, a: string, b: string)
    ensures MentionsAny(lower, [a, b]) <==> Contains(lower, a) || Contains(lower, b)
  {
    if Contains(lower, a) { assert a in [a, b]; }
    if Contains(lower, b) { assert b in [a, b]; }
  }

  /** The chain of `if`s is the table tried in order. */
  lemma TopicOfIsTable(lower: string)
    ensures TopicOf(lower) == FirstTopic(TopicTable, lower)
  {
    MentionsPair(lower, "customer", "account");
    MentionsPair(lower, "communication", "behavior");
    MentionsPair(lower, "risk", "scoring");
    MentionsPair(lower, "help", "how");
    var t := TopicTable;
    var t1 := t[1..];
    var t2 := t1[1..];
    var t3 := t2[1..];
    assert t3[1..] == [];
    assert FirstTopic(t3, lower) == if MentionsAny(lower, ["help", "how"]) then Some(HelpHowTo) else None;
    assert FirstTopic(t2, lower) == if MentionsAny(lower, ["risk", "scoring"]) then Some(RiskScoring) else FirstTopic(t3, lower);
    assert FirstTopic(t1, lower) == if MentionsAny(lower, ["communication", "behavior"]) then Some(CommunicationBehavior) else FirstTopic(t2, lower);
    assert FirstTopic(t, lower) == if MentionsAny(lower, ["customer", "account"]) then Some(CustomerAccount) else FirstTopic(t1, lower);
  }

  /** `generateResponse`: a profile reply when an identifier is found, else
      the first topic bucket that matches, else the generic reply. */
  function GenerateResponse(text: string): Response {
    match ExtractCustomerFromText(text)
    case Some(id) => ProfileResponse(LookupCustomer(id))
    case None =>
      match TopicOf(ToLower(text))
      case Some(t) => TopicResponse(t)
      case None => GenericResponse
  }

  /** A profile is attached exactly when an identifier was found, and it is
      that identifier's catalog record; topic and generic replies carry none. */
  lemma ResponseAnalysis(text: string)
    ensures GenerateResponse(text).Analysis().Some? <==> ExtractCustomerFromText(text).Some?
    ensures ExtractCustomerFromText(text).Some? ==>
              GenerateResponse(text).Analysis() == Some(LookupIn(Catalog, ExtractCustomerFromText(text).value))
  {
  }

  /** With no identifier, bucket `k` of the table answers exactly when one of
      its keywords occurs and none of an earlier bucket does; with no keyword
      at all the reply is the generic one. */
  lemma ResponseTopicOrder(text: string, k: nat)
    requires ExtractCustomerFromText(text).None?
    requires k < |TopicTable|
    ensures GenerateResponse(text) == TopicResponse(TopicTable[k].0)
            <==> MentionsAny(ToLower(text), TopicTable[k].1)
                 && forall j :: 0 <= j < k ==> !MentionsAny(ToLower(text), TopicTable[j].1)
    ensures GenerateResponse(text) == GenericResponse
            <==> forall j :: 0 <= j < |TopicTable| ==> !MentionsAny(ToLower(text), TopicTable[j].1)
  {
    TopicOfIsTable(ToLower(text));
    FirstTopicIsFirstMatch(TopicTable, ToLower(text), k);
    FirstTopicNone(TopicTable, ToLower(text));
  }

  /** `n/10`. */
  function ScoreText(n: nat): string {
    NatToString(n) + "/10"
  }

  /** The score text shows the stored value unmodified: it reads back as `n`
      and two different scores never render alike. */
  lemma ScoreTextVerbatim(m: nat, n: nat)
    ensures ScoreText(9) == "9/10" && ScoreText(10) == "10/10"
    ensures ScoreText(m) == ScoreText(n) ==> m == n
    ensures ParseNat(ScoreText(n)[..|ScoreText(n)| - 3]) == n
  {
    if ScoreText(m) == ScoreText(n) {
      assert NatToString(m) == ScoreText(m)[..|ScoreText(m)| - 3];
      NatToStringInjective(m, n);
    }
    assert NatToString(n) == ScoreText(n)[..|ScoreText(n)| - 3];
    ParseNatToString(n);
  }

  function TopicText(t: Topic): string {
    match t
    case CustomerAccount => "To assess a customer, give their ID or name and the behaviour you have noticed."
    case CommunicationBehavior => "Behaviour analysis covers communication, consistency, policy awareness and risk indicators."
    case RiskScoring => "Each dimension is scored from 1 to 10; low risk earns a discount, high risk a surcharge."
    case HelpHowTo => "I can profile customers, analyse communication and recommend premium adjustments."
  }

  const GenericText: string :=
    "Give me a customer ID or name and I will analyse their communication, behaviour and policy awareness."

  /** The pieces of the profile template: name, identifier, risk level,
      premium adjustment, the three scores as `n/10` and the recommendation. */
  function ProfilePieces(p: Profile): seq<string> {
    [ "Customer ", p.customerName, " (", p.customerId, ")",
      "\nRisk Level: ", p.overallRiskLevel,
      "\nPremium Adjustment: ", p.premiumAdjustment,
      "\nCommunication Score: ", ScoreText(p.communicationScore),
      "\nBehavior Score: ", ScoreText(p.behaviorScore),
      "\nPolicy Awareness Score: ", ScoreText(p.policyAwarenessScore),
      "\nRecommendation: ", p.recommendation ]
  }

  function ProfileText(p: Profile): string {
    Join(ProfilePieces(p), "")
  }

  function Render(r: Response): string {
    match r
    case ProfileResponse(p) => ProfileText(p)
    case TopicResponse(t) => TopicText(t)
    case GenericResponse => GenericText
  }

  /** A profile reply shows every field the template promises, each score
      verbatim as `n/10`. */
  lemma ProfileTextShowsFields(p: Profile)
    ensures Contains(ProfileText(p), p.customerName)
    ensures Contains(ProfileText(p), p.customerId)
    ensures Contains(ProfileText(p), p.overallRiskLevel)
    ensures Contains(ProfileText(p), p.premiumAdjustment)
    ensures Contains(ProfileText(p), ScoreText(p.communicationScore))
    ensures Contains(ProfileText(p), ScoreText(p.behaviorScore))
    ensures Contains(ProfileText(p), ScoreText(p.policyAwarenessScore))
    ensures Contains(ProfileText(p), p.recommendation)
  {
    var ps := ProfilePieces(p);
    JoinContains(ps, "", 1);
    JoinContains(ps, "", 3);
    JoinContains(ps, "", 6);
    JoinContains(ps, "", 8);
    JoinContains(ps, "", 10);
    JoinContains(ps, "", 12);
    JoinContains(ps, "", 14);
    JoinContains(ps, "", 16);
  }

  // ---------------------------------------------------------------------
  // The message log
  // ---------------------------------------------------------------------

  datatype Role = User | Assistant

  /** A chat message without its id and timestamp. */
  datatype Message = Message(role: Role, content: string, analysis: Option<Profile>)

  const Welcome: Message :=
    Message(Assistant, "Hello! Ask me about a customer's communication, behaviour or risk profile.", None)

  /** The assistant message the deferred step builds from submitted text. */
  function ReplyTo(text: string): (m: Message)
    ensures m.role == Assistant
    ensures m.analysis == GenerateResponse(text).Analysis()
    ensures m.content == Render(GenerateResponse(text))
  {
    var r := GenerateResponse(text);
    Message(Assistant, Render(r), r.Analysis())
  }

  /** When the text names a customer, the reply appended to the log shows
      that customer's name, identifier, risk level, premium adjustment, the
      three `n/10` scores and the recommendation. */
  lemma ReplyShowsProfile(text: string)
    requires ExtractCustomerFromText(text).Some?
    ensures var p := LookupCustomer(ExtractCustomerFromText(text).value);
            var c := ReplyTo(text).content;
            Contains(c, p.customerName) && Contains(c, p.customerId)
            && Contains(c, p.overallRiskLevel) && Contains(c, p.premiumAdjustment)
            && Contains(c, ScoreText(p.communicationScore)) && Contains(c, ScoreText(p.behaviorScore))
            && Contains(c, ScoreText(p.policyAwarenessScore)) && Contains(c, p.recommendation)
  {
    var p := LookupCustomer(ExtractCustomerFromText(text).value);
    assert ReplyTo(text).content == ProfileText(p);
    ProfileTextShowsFields(p);
  }

  /** The component's state; `pending` holds, oldest first, the text of each
      send whose reply timer has not fired yet. */
  datatype ChatState = ChatState(messages: seq<Message>, inputText: string, isTyping: bool, pending: seq<string>)

  const InitialChat: ChatState := ChatState([Welcome], "", false, [])

  /** Typing into the box or clicking an example question. */
  function SetInput(s: ChatState, text: string): ChatState {
    s.(inputText := text)
  }

  /** `handleSendMessage`: blank input changes nothing; otherwise the user
      message is appended, the box cleared, the typing flag raised and the
      reply scheduled with the submitted text. */
  function Send(s: ChatState): ChatState {
    if Trim(s.inputText) == [] then s
    else ChatState(s.messages + [Message(User, s.inputText, None)], "", true, s.pending + [s.inputText])
  }

  /** The oldest reply timer fires (nothing happens when none is scheduled);
      `reply` builds the assistant message from the submitted text. The log
      is stated for any such builder; the component's own is `ReplyTo`. */
  function Fire(s: ChatState, reply: string -> Message): ChatState {
    if s.pending == [] then s
    else s.(messages := s.messages + [reply(s.pending[0])], isTyping := false, pending := s.pending[1..])
  }

  /** Whitespace-only input leaves the whole state alone. */
  lemma SendIgnoresBlank(s: ChatState)
    requires AllSpace(s.inputText)
    ensures Send(s) == s
  {
    TrimEmptyIff(s.inputText);
  }

  /** Other input appends exactly one user message holding it, clears the box
      and sets the typing flag; earlier messages are untouched. */
  lemma SendAppendsUserMessage(s: ChatState)
    requires !AllSpace(s.inputText)
    ensures |Send(s).messages| == |s.messages| + 1
    ensures Send(s).messages[..|s.messages|] == s.messages
    ensures Send(s).messages[|s.messages|] == Message(User, s.inputText, None)
    ensures Send(s).inputText == "" && Send(s).isTyping
  {
    TrimEmptyIff(s.inputText);
  }

  /** A firing timer appends exactly one assistant message, built from the text
      submitted with the oldest pending send, and clears the typing flag. */
  lemma FireAppendsReply(s: ChatState, reply: string -> Message)
    requires s.pending != []
    ensures |Fire(s, reply).messages| == |s.messages| + 1
    ensures Fire(s, reply).messages[..|s.messages|] == s.messages
    ensures Fire(s, reply).messages[|s.messages|] == reply(s.pending[0])
    ensures !Fire(s, reply).isTyping && Fire(s, reply).inputText == s.inputText
  {
  }

  datatype ChatEvent = Typed(text: string) | Sent | ReplyDue

  function Step(s: ChatState, e: ChatEvent, reply: string -> Message): ChatState {
    match e
    case Typed(t) => SetInput(s, t)
    case Sent => Send(s)
    case ReplyDue => Fire(s, reply)
  }

  function Run(s: ChatState, es: seq<ChatEvent>, reply: string -> Message): ChatState
    decreases |es|
  {
    if es == [] then s else Run(Step(s, es[0], reply), es[1..], reply)
  }

  /** The log is append-only: whatever happens, the earlier messages stay a
      prefix of the log. */
  lemma {:induction false} LogAppendOnly(s: ChatState, es: seq<ChatEvent>, reply: string -> Message)
    ensures |s.messages| <= |Run(s, es, reply).messages|
    ensures Run(s, es, reply).messages[..|s.messages|] == s.messages
    decreases |es|
  {
    if es != [] {
      var t := Step(s, es[0], reply);
      assert t.messages[..|s.messages|] == s.messages;
      LogAppendOnly(t, es[1..], reply);
      assert Run(s, es, reply).messages[..|t.messages|][..|s.messages|] == Run(s, es, reply).messages[..|s.messages|];
    }
  }

  /** The texts of the user messages, in log order. */
  function UserTexts(ms: seq<Message>): seq<string> {
    if ms == [] then []
    else UserTexts(ms[..|ms| - 1]) + (if ms[|ms| - 1].role == User then [ms[|ms| - 1].content] else [])
  }

  /** The assistant messages, in log order. */
  function Replies(ms: seq<Message>): seq<Message> {
    if ms == [] then []
    else Replies(ms[..|ms| - 1]) + (if ms[|ms| - 1].role == Assistant then [ms[|ms| - 1]] else [])
  }

  /** A reply builder that only ever produces assistant messages. */
  ghost predicate AssistantOnly(reply: string -> Message) {
    forall text :: reply(text).role == Assistant
  }

  /** The conversation invariant: the log opens with the welcome message, the
      i-th reply after it is the reply to the i-th user message, the pending
      timers hold exactly the unanswered user messages in order, and the typing
      flag is up only while a reply is pending. */
  ghost predicate Conversation(s: ChatState, reply: string -> Message) {
    AssistantOnly(reply) &&
    |s.messages| >= 1 && s.messages[0] == Welcome
    && var us := UserTexts(s.messages[1..]);
       var rs := Replies(s.messages[1..]);
       |us| == |rs| + |s.pending|
       && s.pending == us[|rs|..]
       && (forall i :: 0 <= i < |rs| ==> rs[i] == reply(us[i]))
       && (s.isTyping ==> s.pending != [])
  }

  lemma InitialConversation(reply: string -> Message)
    requires AssistantOnly(reply)
    ensures Conversation(InitialChat, reply)
  {
    assert InitialChat.messages[1..] == [];
  }

  lemma AppendOne(ms: seq<Message>, m: Message)
    ensures UserTexts(ms + [m]) == UserTexts(ms) + (if m.role == User then [m.content] else [])
    ensures Replies(ms + [m]) == Replies(ms) + (if m.role == Assistant then [m] else [])
  {
    assert (ms + [m])[..|ms + [m]| - 1] == ms;
  }

  /** A send keeps the conversation invariant: the new user message is the
      newest unanswered one. */
  lemma SendKeepsConversation(s: ChatState, reply: string -> Message)
    requires Conversation(s, reply)
    ensures Conversation(Send(s), reply)
  {
    var t := Send(s);
    if t != s {
      var m := Message(User, s.inputText, None);
      assert t.messages[1..] == s.messages[1..] + [m];
      AppendOne(s.messages[1..], m);
      var us := UserTexts(s.messages[1..]);
      var rs := Replies(s.messages[1..]);
      assert (us + [m.content])[|rs|..] == us[|rs|..] + [m.content];
    }
  }

  /** A firing timer keeps the conversation invariant: it answers the oldest
      unanswered user message. */
  lemma FireKeepsConversation(s: ChatState, reply: string -> Message)
    requires Conversation(s, reply)
    ensures Conversation(Fire(s, reply), reply)
  {
    if s.pending != [] {
      var t := Fire(s, reply);
      var m := reply(s.pending[0]);
      assert t.messages[1..] == s.messages[1..] + [m];
      AppendOne(s.messages[1..], m);
      var us := UserTexts(s.messages[1..]);
      var rs := Replies(s.messages[1..]);
      assert UserTexts(t.messages[1..]) == us;
      assert Replies(t.messages[1..]) == rs + [m];
      assert s.pending[0] == us[|rs|];
      forall i | 0 <= i < |rs| + 1
        ensures (rs + [m])[i] == reply(us[i])
      {
        if i == |rs| {
          assert (rs + [m])[i] == m;
        } else {
          assert (rs + [m])[i] == rs[i];
        }
      }
      assert t.pending == us[|rs| + 1..] by {
        assert us[|rs| + 1..] == us[|rs|..][1..];
      }
    }
  }

  /** Every event keeps the conversation invariant. */
  lemma StepKeepsConversation(s: ChatState, e: ChatEvent, reply: string -> Message)
    requires Conversation(s, reply)
    ensures Conversation(Step(s, e, reply), reply)
  {
    match e
    case Typed(_) =>
    case Sent => SendKeepsConversation(s, reply);
    case ReplyDue => FireKeepsConversation(s, reply);
  }

  /** The invariant holds after any sequence of events from the initial state:
      no reply is lost, duplicated or attached to the wrong question. */
  lemma {:induction false} RunKeepsConversation(s: ChatState, es: seq<ChatEvent>, reply: string -> Message)
    requires Conversation(s, reply)
    ensures Conversation(Run(s, es, reply), reply)
    decreases |es|
  {
    if es != [] {
      StepKeepsConversation(s, es[0], reply);
      RunKeepsConversation(Step(s, es[0], reply), es[1..], reply);
    }
  }

  /** Once no reply is pending, every user message has been answered exactly once. */
  lemma QuiescentAllAnswered(s: ChatState, reply: string -> Message)
    requires Conversation(s, reply) && s.pending == []
    ensures |Replies(s.messages[1..])| == |UserTexts(s.messages[1..])|
    ensures !s.isTyping
  {
  }

  /** The chat component's mutable state. */
  class Chat {
    var messages: seq<Message>
    var inputText: string
    var isTyping: bool
    var pending: seq<string>
    /** The reply builder the deferred step calls. */
    const reply: string -> Message

    function State(): ChatState
      reads this
    {
      ChatState(messages, inputText, isTyping, pending)
    }

    ghost predicate Valid()
      reads this
    {
      Conversation(State(), reply)
    }

    constructor ()
      ensures State() == InitialChat && reply == ReplyTo && Valid()
    {
      reply := ReplyTo;
      messages := [Welcome];
      inputText := "";
      isTyping := false;
      pending := [];
      InitialConversation(ReplyTo);
    }

    /** `onChange` of the text box, or a click on an example question. */
    method SetInputText(text: string)
      requires Valid()
      modifies this
      ensures State() == SetInput(old(State()), text) && Valid()
    {
      inputText := text;
      StepKeepsConversation(old(State()), Typed(text), reply);
    }

    method SendMessage()
      requires Valid()
      modifies this
      ensures State() == Send(old(State())) && Valid()
    {
      StepKeepsConversation(State(), Sent, reply);
      if Trim(inputText) == [] {
        return;
      }
      var submitted := inputText;
      messages := messages + [Message(User, submitted, None)];
      inputText := "";
      isTyping := true;
      pending := pending + [submitted];
    }

    /** Enter without Shift sends; the button's own guard (`isTyping`) does not
      apply to the key. */
    method KeyPress(isEnter: bool, shift: bool)
      requires Valid()
      modifies this
      ensures State() == (if isEnter && !shift then Send(old(State())) else old(State())) && Valid()
    {
      if isEnter && !shift {
        SendMessage();
      }
    }

    /** The send button is enabled for non-blank input while no reply is
      typing; a click then appends exactly the typed text as a user message. */
    predicate SendEnabled()
      reads this
      ensures SendEnabled() ==> Send(State()).messages == messages + [Message(User, inputText, None)]
      ensures SendEnabled() ==> Send(State()).pending == pending + [inputText]
    {
      Trim(inputText) != [] && !isTyping
    }

    /** The reply timer fires. */
    method FireReply()
      requires Valid()
      modifies this
      ensures State() == Fire(old(State()), reply) && Valid()
    {
      StepKeepsConversation(State(), ReplyDue, reply);
      if pending == [] {
        return;
      }
      var text := pending[0];
      messages := messages + [reply(text)];
      isTyping := false;
      pending := pending[1..];
    }
  }
}
