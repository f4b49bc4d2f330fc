/** The customer journey helpers: the interaction icon table, the score
    bands, the trend between consecutive timeline entries, the first-`_`
    label formatting, the connector rule and the two-way customer selector.
    The interaction catalog itself is an input. */
module CustomerJourney {
  import opened Wrappers
  import opened Text
  import opened Profiles

  datatype InteractionIcon = Phone | Mail | MessageCircle

  /** `getInteractionIcon`: three known types, the chat icon for the rest. */
  function IconFor(interactionType: string): (icon: InteractionIcon)
    ensures icon == Phone <==> interactionType == "phone_call"
    ensures icon == Mail <==> interactionType == "email"
    ensures interactionType !in {"phone_call", "email"} ==> icon == MessageCircle
  {
    match interactionType
    case "phone_call" => Phone
    case "email" => Mail
    case "chat" => MessageCircle
    case _ => MessageCircle
  }

  /** `getScoreColor` of this view: at least 8 green, at least 5 yellow, red
      below. */
  function ScoreColor(score: real): (t: Tone)
    ensures t == Green <==> score >= 8.0
    ensures t == Yellow <==> 5.0 <= score < 8.0
    ensures t == Red <==> score < 5.0
  {
    if score >= 8.0 then Green else if score >= 5.0 then Yellow else Red
  }

  datatype TrendIcon = TrendingUp | TrendingDown
  datatype Trend = Trend(icon: TrendIcon, tone: Tone)

  /** `getScoreTrend`: up and green for a rise, down and red for a fall, up
      and grey for no change. */
  function ScoreTrend(current: real, previous: real): (t: Trend)
    ensures t == Trend(TrendingUp, Green) <==> current > previous
    ensures t == Trend(TrendingDown, Red) <==> current < previous
    ensures t == Trend(TrendingUp, Gray) <==> current == previous
  {
    if current > previous then Trend(TrendingUp, Green)
    else if current < previous then Trend(TrendingDown, Red)
    else Trend(TrendingUp, Gray)
  }

  /** Swapping the two scores swaps a rise and a fall and keeps no change. */
  lemma TrendAntisymmetric(a: real, b: real)
    ensures ScoreTrend(a, b).tone == Green <==> ScoreTrend(b, a).tone == Red
    ensures ScoreTrend(a, b).tone == Gray <==> ScoreTrend(b, a).tone == Gray
  {
  }

  datatype TimelineEntry = TimelineEntry(behaviorScore: real, communicationScore: real)

  /** The entry a timeline entry is compared with: its predecessor, or itself
      for the first one. */
  function PreviousEntry(timeline: seq<TimelineEntry>, index: nat): (e: TimelineEntry)
    requires index < |timeline|
    ensures index == 0 ==> e == timeline[0]
    ensures index > 0 ==> e == timeline[index - 1]
  {
    if index > 0 then timeline[index - 1] else timeline[index]
  }

  /** The behaviour and communication trends shown for every entry. */
  function Trends(timeline: seq<TimelineEntry>): (ts: seq<(Trend, Trend)>)
    ensures |ts| == |timeline|
  {
    seq(|timeline|, i requires 0 <= i < |timeline| =>
      (ScoreTrend(timeline[i].behaviorScore, PreviousEntry(timeline, i).behaviorScore),
       ScoreTrend(timeline[i].communicationScore, PreviousEntry(timeline, i).communicationScore)))
  }

  /** The first entry is compared with itself, so it always shows the neutral
      grey trend; every later entry shows its change from the one before. */
  lemma TrendsOfTimeline(timeline: seq<TimelineEntry>)
    ensures |timeline| > 0 ==> Trends(timeline)[0] == (Trend(TrendingUp, Gray), Trend(TrendingUp, Gray))
    ensures forall i :: 0 < i < |timeline| ==>
              (Trends(timeline)[i].0.tone == Green <==> timeline[i].behaviorScore > timeline[i - 1].behaviorScore)
              && (Trends(timeline)[i].1.tone == Red <==> timeline[i].communicationScore < timeline[i - 1].communicationScore)
    ensures forall i :: 0 < i < |timeline| ==>
              Trends(timeline)[i]
              == (ScoreTrend(timeline[i].behaviorScore, timeline[i - 1].behaviorScore),
                  ScoreTrend(timeline[i].communicationScore, timeline[i - 1].communicationScore))
  {
  }

  /** `s.replace('_', ' ')`: only the first underscore becomes a space, the
      rest of the string is untouched. */
  function FormatLabel(s: string): (r: string)
    ensures |r| == |s|
    ensures '_' !in s ==> r == s
    ensures '_' in s ==> r[IndexOf(s, '_')] == ' '
                         && r[..IndexOf(s, '_')] == s[..IndexOf(s, '_')]
                         && r[IndexOf(s, '_') + 1..] == s[IndexOf(s, '_') + 1..]
  {
    ReplaceFirstSpec(s, '_', ' ');
    ReplaceFirst(s, '_', ' ')
  }

  /** A label turns the first `_` into a space and keeps everything after
      it, later underscores included. */
  lemma FormatLabelSplit(pre: string, post: string)
    requires '_' !in pre
    ensures FormatLabel(pre + "_" + post) == pre + " " + post
  {
    ReplaceFirstAfter(pre, '_', ' ', post);
  }

  /** `phone_call` shows as `phone call` and `a_b_c` as `a b_c`. */
  lemma FormatLabelExamples()
    ensures FormatLabel("phone_call") == "phone call"
    ensures FormatLabel("a_b_c") == "a b_c"
  {
    assert "phone_call" == "phone" + "_" + "call";
    assert "phone call" == "phone" + " " + "call";
    FormatLabelSplit("phone", "call");
    assert "a_b_c" == "a" + "_" + "b_c";
    assert "a b_c" == "a" + " " + "b_c";
    FormatLabelSplit("a", "b_c");
  }

  /** `transcript_summary || `${message_count} messages exchanged``. */
  function SummaryLine(transcriptSummary: Option<string>, messageCount: nat): (line: string)
    ensures transcriptSummary.Some? && transcriptSummary.value != "" ==> line == transcriptSummary.value
    ensures transcriptSummary.None? || transcriptSummary.value == "" ==>
              line == NatToString(messageCount) + " messages exchanged"
  {
    if transcriptSummary.Some? && transcriptSummary.value != "" then transcriptSummary.value
    else NatToString(messageCount) + " messages exchanged"
  }

  /** Without a transcript summary the line is the message count in decimal
      followed by ` messages exchanged`, and that number reads back as the
      count. */
  lemma SummaryLineCount(transcriptSummary: Option<string>, messageCount: nat)
    requires transcriptSummary.None? || transcriptSummary.value == ""
    ensures var line := SummaryLine(transcriptSummary, messageCount);
            var digits := line[..|line| - |" messages exchanged"|];
            |line| > |" messages exchanged"|
            && line[|digits|..] == " messages exchanged"
            && (forall i :: 0 <= i < |digits| ==> IsDigit(digits[i]))
            && ParseNat(digits) == messageCount
  {
    var d := NatToString(messageCount);
    var line := SummaryLine(transcriptSummary, messageCount);
    assert line == d + " messages exchanged";
    assert line[..|line| - |" messages exchanged"|] == d;
    ParseNatToString(messageCount);
  }

  /** A connector follows interaction `index` unless it is the last. */
  predicate Connector(index: nat, count: nat) {
    index < count - 1
  }

  /** Exactly the last of a non-empty timeline has no connector. */
  lemma ConnectorsBetween(count: nat)
    ensures forall i :: 0 <= i < count ==> (Connector(i, count) <==> i != count - 1)
  {
  }

  datatype CustomerId = Customer001 | Customer002

  function IdText(id: CustomerId): (t: string)
    ensures t == "CUSTOMER_001" || t == "CUSTOMER_002"
    ensures (t == "CUSTOMER_001") == id.Customer001?
  {
    match id
    case Customer001 => "CUSTOMER_001"
    case Customer002 => "CUSTOMER_002"
  }

  /** The selector: starts at `CUSTOMER_001`; each button overwrites the
      selection with its own id, and the button for the selection is the
      highlighted one. */
  class Selector {
    var selected: CustomerId

    constructor ()
      ensures selected == Customer001
    {
      selected := Customer001;
    }

    predicate Highlighted(id: CustomerId)
      reads this
    {
      selected == id
    }

    method Select(id: CustomerId)
      modifies this
      ensures selected == id && Highlighted(id)
      ensures forall other :: other != id ==> !Highlighted(other)
    {
      selected := id;
    }
  }
}
