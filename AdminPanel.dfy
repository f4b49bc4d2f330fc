/** The admin panel: a small edit state machine over a copy of the last
    analysis's recommendation, the raw-data and control toggles, and the
    audit rows built from a fixed record with a location fallback. The last
    analysis is the shell's, passed in; the timestamp is an input. */
module AdminPanel {
  import opened Wrappers
  import opened Text
  import opened Profiles

  datatype AdminState = AdminState(
    isEditing: bool,
    editedSummary: string,
    showRawData: bool,
    auditTrailEnabled: bool,
    explainabilityEnabled: bool)

  const InitialAdmin: AdminState := AdminState(false, "", false, true, true)

  /** `lastAnalysis?.recommendation || ''`: the recommendation when there is
      a non-empty one, the empty string otherwise. */
  function SummaryFrom(lastAnalysis: Option<Analysis>): (r: string)
    ensures r != "" ==> lastAnalysis.Some? && lastAnalysis.value.recommendation == Some(r)
    ensures lastAnalysis.Some? && lastAnalysis.value.recommendation.Some? ==> r == lastAnalysis.value.recommendation.value
    ensures lastAnalysis.None? || lastAnalysis.value.recommendation.None? ==> r == ""
  {
    match lastAnalysis
    case None => ""
    case Some(a) => match a.recommendation { case None => "" case Some(text) => text }
  }

  /** `handleEdit`. */
  function Edit(s: AdminState, lastAnalysis: Option<Analysis>): AdminState {
    s.(isEditing := true, editedSummary := SummaryFrom(lastAnalysis))
  }

  /** `handleSave`: editing stops and the edited text is kept (the analysis
      itself is not touched: it is not part of this state). */
  function Save(s: AdminState): AdminState {
    s.(isEditing := false)
  }

  /** `handleCancel`: editing stops and the edited text is dropped. */
  function Cancel(s: AdminState): AdminState {
    s.(isEditing := false, editedSummary := "")
  }

  /** The textarea is typed into. */
  function ChangeSummary(s: AdminState, text: string): AdminState {
    s.(editedSummary := text)
  }

  function ToggleRaw(s: AdminState): AdminState {
    s.(showRawData := !s.showRawData)
  }

  function SetAuditTrail(s: AdminState, on: bool): AdminState {
    s.(auditTrailEnabled := on)
  }

  function SetExplainability(s: AdminState, on: bool): AdminState {
    s.(explainabilityEnabled := on)
  }

  /** Edit then save leaves the recommendation as the kept summary with
      editing off; edit then cancel leaves an empty summary; neither touches
      the toggles. */
  lemma EditThenDecide(s: AdminState, lastAnalysis: Option<Analysis>)
    ensures var t := Save(Edit(s, lastAnalysis));
            !t.isEditing && t.editedSummary == SummaryFrom(lastAnalysis)
            && t.showRawData == s.showRawData && t.auditTrailEnabled == s.auditTrailEnabled
    ensures var t := Cancel(Edit(s, lastAnalysis));
            !t.isEditing && t.editedSummary == ""
            && t.showRawData == s.showRawData && t.explainabilityEnabled == s.explainabilityEnabled
  {
  }

  /** Whatever was typed, save keeps the last text and cancel drops it. */
  lemma {:induction false} TypingThenDecide(s: AdminState, typed: seq<string>)
    requires s.isEditing && |typed| > 0
    ensures Save(Typed(s, typed)) == s.(isEditing := false, editedSummary := typed[|typed| - 1])
    ensures Cancel(Typed(s, typed)) == s.(isEditing := false, editedSummary := "")
  {
    if |typed| > 1 {
      TypingThenDecide(s, typed[..|typed| - 1]);
    }
  }

  /** A sequence of textarea changes, oldest first. */
  function Typed(s: AdminState, typed: seq<string>): AdminState
    decreases |typed|
  {
    if typed == [] then s else ChangeSummary(Typed(s, typed[..|typed| - 1]), typed[|typed| - 1])
  }

  /** Toggling raw data twice restores the original state. */
  lemma ToggleRawTwice(s: AdminState)
    ensures ToggleRaw(ToggleRaw(s)) == s
    ensures ToggleRaw(s).showRawData != s.showRawData
  {
  }

  /** The review panels (summary, JSON viewer, audit trail) need an analysis;
      without one only the placeholder shows. */
  predicate ReviewShown(lastAnalysis: Option<Analysis>) { lastAnalysis.Some? }
  predicate PlaceholderShown(lastAnalysis: Option<Analysis>) { lastAnalysis.None? }
  predicate TextareaShown(s: AdminState, lastAnalysis: Option<Analysis>) { ReviewShown(lastAnalysis) && s.isEditing }
  predicate JsonShown(s: AdminState, lastAnalysis: Option<Analysis>) { ReviewShown(lastAnalysis) && s.showRawData }
  predicate AuditShown(s: AdminState, lastAnalysis: Option<Analysis>) { ReviewShown(lastAnalysis) && s.auditTrailEnabled }

  /** Exactly one of the review area and the placeholder shows, and every
      panel inside the review area is hidden without an analysis. */
  lemma PanelsNeedAnalysis(s: AdminState, lastAnalysis: Option<Analysis>)
    ensures ReviewShown(lastAnalysis) != PlaceholderShown(lastAnalysis)
    ensures PlaceholderShown(lastAnalysis) ==>
              !TextareaShown(s, lastAnalysis) && !JsonShown(s, lastAnalysis) && !AuditShown(s, lastAnalysis)
    ensures ReviewShown(lastAnalysis) ==> AuditShown(InitialAdmin, lastAnalysis) && !JsonShown(InitialAdmin, lastAnalysis)
  {
  }

  /** The audit-trail switch alone decides whether the audit section shows
      (given an analysis); the explainability switch changes no panel. */
  lemma ControlToggles(s: AdminState, lastAnalysis: Option<Analysis>, on: bool)
    ensures AuditShown(SetAuditTrail(s, on), lastAnalysis) <==> lastAnalysis.Some? && on
    ensures JsonShown(SetAuditTrail(s, on), lastAnalysis) == JsonShown(s, lastAnalysis)
    ensures var t := SetExplainability(s, on);
            t.explainabilityEnabled == on
            && AuditShown(t, lastAnalysis) == AuditShown(s, lastAnalysis)
            && JsonShown(t, lastAnalysis) == JsonShown(s, lastAnalysis)
            && TextareaShown(t, lastAnalysis) == TextareaShown(s, lastAnalysis)
  {
  }

  // ---------------------------------------------------------------------
  // The audit record and its rows
  // ---------------------------------------------------------------------

  /** An audit field holds a plain value or an array of them. */
  datatype AuditValue = Text(text: string) | List(items: seq<string>)

  /** `lastAnalysis?.location || "N/A"`. */
  function LocationQuery(lastAnalysis: Option<Analysis>): (r: string)
    ensures r == "N/A" || (lastAnalysis.Some? && lastAnalysis.value.location == Some(r) && r != "")
    ensures lastAnalysis.Some? && lastAnalysis.value.location.Some? && lastAnalysis.value.location.value != ""
            ==> r == lastAnalysis.value.location.value
    ensures lastAnalysis.None? || lastAnalysis.value.location.None? ==> r == "N/A"
  {
    if lastAnalysis.Some? && lastAnalysis.value.location.Some? && lastAnalysis.value.location.value != ""
    then lastAnalysis.value.location.value
    else "N/A"
  }

  const Agents: seq<string> := ["geolocation", "data-retrieval", "risk-scoring", "recommendation"]
  const DataSources: seq<string> := ["FBI UCR", "Census Bureau", "NOAA", "Internal Claims DB"]

  /** The audit record's fields, in declaration order. */
  function AuditData(timestamp: string, lastAnalysis: Option<Analysis>): seq<(string, AuditValue)> {
    [("timestamp", Text(timestamp)),
     ("user_id", Text("underwriter_001")),
     ("location_query", Text(LocationQuery(lastAnalysis))),
     ("agents_involved", List(Agents)),
     ("processing_time", Text("2.8s")),
     ("data_sources", List(DataSources)),
     ("compliance_flags", List([]))]
  }

  /** A row's label: every `_` becomes a space. */
  function RowLabel(key: string): (caption: string)
    ensures |caption| == |key| && '_' !in caption
    ensures forall i :: 0 <= i < |key| && key[i] != '_' ==> caption[i] == key[i]
    ensures forall i :: 0 <= i < |key| && key[i] == '_' ==> caption[i] == ' '
  {
    ReplaceAll(key, '_', ' ')
  }

  /** A row's value: arrays are joined with `", "`. */
  function RowValue(v: AuditValue): (shown: string)
    ensures v.Text? ==> shown == v.text
    ensures v.List? ==> forall k :: 0 <= k < |v.items| ==> Contains(shown, v.items[k])
    ensures v.List? && v.items == [] ==> shown == ""
  {
    match v
    case Text(t) => t
    case List(xs) =>
      JoinContainsAll(xs, ", ");
      Join(xs, ", ")
  }

  function AuditRows(entries: seq<(string, AuditValue)>): (rows: seq<(string, string)>)
    ensures |rows| == |entries|
    ensures forall i :: 0 <= i < |rows| ==> rows[i] == (RowLabel(entries[i].0), RowValue(entries[i].1))
  {
    seq(|entries|, i requires 0 <= i < |entries| => (RowLabel(entries[i].0), RowValue(entries[i].1)))
  }

  /** An array value shows its items in order with `", "` between them: a
      single item as itself, a longer array as its first item, `", "`, then
      the rest. */
  lemma {:induction false} JoinedInOrder(xs: seq<string>)
    requires |xs| >= 1
    ensures |xs| == 1 ==> RowValue(List(xs)) == xs[0]
    ensures |xs| >= 2 ==> RowValue(List(xs)) == xs[0] + ", " + RowValue(List(xs[1..]))
  {
  }

  /** The agent list shows as its four names separated by `", "`. */
  lemma AgentsJoined()
    ensures RowValue(List(Agents)) == Agents[0] + ", " + Agents[1] + ", " + Agents[2] + ", " + Agents[3]
  {
    assert Agents[1..][1..] == Agents[2..];
    assert Agents[2..][1..] == [Agents[3]];
  }

  /** The seven audit rows: no label keeps an underscore, the location row
      falls back to `N/A`, the agent list is the joined array and the empty
      compliance list shows as an empty value. */
  lemma AuditRowsShape(timestamp: string, lastAnalysis: Option<Analysis>)
    ensures var rows := AuditRows(AuditData(timestamp, lastAnalysis));
            |rows| == 7
            && (forall i :: 0 <= i < 7 ==> '_' !in rows[i].0)
            && rows[0].1 == timestamp
            && rows[2].1 == LocationQuery(lastAnalysis)
            && (lastAnalysis.None? ==> rows[2].1 == "N/A")
            && rows[3].1 == RowValue(List(Agents))
            && rows[6].1 == ""
  {
  }

  /** The admin panel component's state. */
  class Panel {
    var isEditing: bool
    var editedSummary: string
    var showRawData: bool
    var auditTrailEnabled: bool
    var explainabilityEnabled: bool

    function State(): AdminState
      reads this
    {
      AdminState(isEditing, editedSummary, showRawData, auditTrailEnabled, explainabilityEnabled)
    }

    constructor ()
      ensures State() == InitialAdmin
    {
      isEditing := false;
      editedSummary := "";
      showRawData := false;
      auditTrailEnabled := true;
      explainabilityEnabled := true;
    }

    method HandleEdit(lastAnalysis: Option<Analysis>)
      modifies this
      ensures State() == Edit(old(State()), lastAnalysis)
    {
      isEditing := true;
      editedSummary := SummaryFrom(lastAnalysis);
    }

    method HandleSave()
      modifies this
      ensures State() == Save(old(State()))
    {
      isEditing := false;
    }

    method HandleCancel()
      modifies this
      ensures State() == Cancel(old(State()))
    {
      isEditing := false;
      editedSummary := "";
    }

    method SetEditedSummary(text: string)
      modifies this
      ensures State() == ChangeSummary(old(State()), text)
    {
      editedSummary := text;
    }

    method ToggleRawData()
      modifies this
      ensures State() == ToggleRaw(old(State()))
    {
      showRawData := !showRawData;
    }

    method SetAuditTrailEnabled(on: bool)
      modifies this
      ensures State() == SetAuditTrail(old(State()), on)
    {
      auditTrailEnabled := on;
    }

    method SetExplainabilityEnabled(on: bool)
      modifies this
      ensures State() == SetExplainability(old(State()), on)
    {
      explainabilityEnabled := on;
    }
  }
}
