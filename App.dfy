/** The application shell: the shared processing signal raised by an analysis
    request and lowered by its deferred completion, the welcome-modal and
    guided-tour flags, and the dispatch from the active tab id to a view. */
module App {
  import opened Wrappers
  import opened Profiles

  /** The fixed record the deferred completion stores as `lastAnalysis`. */
  const SampleAnalysis: Analysis := Analysis(
    "Sample Customer",
    Some("This customer presents moderate behavioral risk factors requiring standard underwriting protocols."),
    None)

  /** The shell's state; `pendingCompletions` counts the completion timers
      scheduled and not yet fired. */
  datatype AppState = AppState(
    activeTab: string,
    showWelcomeModal: bool,
    isProcessing: bool,
    tourRunning: bool,
    lastAnalysis: Option<Analysis>,
    pendingCompletions: nat)

  const InitialApp: AppState := AppState("chat", true, false, false, None, 0)

  /** `handleAnalysisRequest`: processing starts at once and a completion is scheduled. */
  function RequestAnalysis(s: AppState): AppState {
    s.(isProcessing := true, pendingCompletions := s.pendingCompletions + 1)
  }

  /** A completion timer fires (nothing happens when none is scheduled). */
  function CompleteAnalysis(s: AppState): AppState {
    if s.pendingCompletions == 0 then s
    else s.(isProcessing := false, lastAnalysis := Some(SampleAnalysis),
            pendingCompletions := s.pendingCompletions - 1)
  }

  function TourStart(s: AppState): AppState {
    s.(showWelcomeModal := false, tourRunning := true, activeTab := "analysis")
  }

  function TourFinish(s: AppState): AppState {
    s.(tourRunning := false)
  }

  /** The sidebar selects a tab. */
  function ChangeTab(s: AppState, tab: string): AppState {
    s.(activeTab := tab)
  }

  /** The header reopens the welcome modal, or the modal is closed. */
  function SetWelcome(s: AppState, shown: bool): AppState {
    s.(showWelcomeModal := shown)
  }

  /** A request followed by its completion leaves processing off and the fixed
      sample as the last analysis, whatever came before. */
  lemma RequestThenComplete(s: AppState)
    ensures RequestAnalysis(s).isProcessing
    ensures CompleteAnalysis(RequestAnalysis(s)).isProcessing == false
    ensures CompleteAnalysis(RequestAnalysis(s)).lastAnalysis == Some(SampleAnalysis)
    ensures SampleAnalysis.customerName == "Sample Customer"
    ensures CompleteAnalysis(RequestAnalysis(s)).pendingCompletions == s.pendingCompletions
  {
  }

  /** Two overlapping requests: the first completion already lowers the
      signal while the second is still scheduled. */
  lemma OverlappingRequests(s: AppState)
    ensures var t := CompleteAnalysis(RequestAnalysis(RequestAnalysis(s)));
            !t.isProcessing && t.pendingCompletions == s.pendingCompletions + 1
  {
  }

  /** Starting and finishing the tour leaves the analysis tab selected with
      the modal hidden; finishing changes nothing but the tour flag. */
  lemma TourRoundTrip(s: AppState)
    ensures var t := TourFinish(TourStart(s));
            !t.tourRunning && !t.showWelcomeModal && t.activeTab == "analysis"
            && t.isProcessing == s.isProcessing && t.lastAnalysis == s.lastAnalysis
    ensures TourFinish(s).(tourRunning := s.tourRunning) == s
  {
  }

  /** What `renderActiveTab` shows; the analysis view rendered for the
      `analysis` tab is wrapped as a tour target, the fallback one is not. */
  datatype View =
    | ChatView
    | AnalysisView(isProcessing: bool, tourTarget: bool)
    | WorkflowView(isProcessing: bool)
    | InterAgentView(isProcessing: bool)
    | JourneyView
    | AdminView(lastAnalysis: Option<Analysis>)
    | AnalyticsView
    | ResponsibleAIView
    | AboutView

  const KnownTabs: seq<string> :=
    ["chat", "analysis", "workflow", "inter-agent", "journey", "admin", "analytics", "responsible-ai", "about"]

  function RenderActiveTab(s: AppState): View {
    match s.activeTab
    case "chat" => ChatView
    case "analysis" => AnalysisView(s.isProcessing, true)
    case "workflow" => WorkflowView(s.isProcessing)
    case "inter-agent" => InterAgentView(s.isProcessing)
    case "journey" => JourneyView
    case "admin" => AdminView(s.lastAnalysis)
    case "analytics" => AnalyticsView
    case "responsible-ai" => ResponsibleAIView
    case "about" => AboutView
    case _ => AnalysisView(s.isProcessing, false)
  }

  /** The tab a view belongs to; the fallback analysis view has none. */
  function ViewTab(v: View): Option<string> {
    match v
    case ChatView => Some("chat")
    case AnalysisView(_, target) => if target then Some("analysis") else None
    case WorkflowView(_) => Some("workflow")
    case InterAgentView(_) => Some("inter-agent")
    case JourneyView => Some("journey")
    case AdminView(_) => Some("admin")
    case AnalyticsView => Some("analytics")
    case ResponsibleAIView => Some("responsible-ai")
    case AboutView => Some("about")
  }

  /** Each known tab dispatches to its own view and every other id falls back
      to the analysis view. */
  lemma DispatchRoundTrip(s: AppState)
    ensures s.activeTab in KnownTabs ==> ViewTab(RenderActiveTab(s)) == Some(s.activeTab)
    ensures s.activeTab !in KnownTabs ==> RenderActiveTab(s) == AnalysisView(s.isProcessing, false)
  {
  }

  /** The analysis, workflow and inter-agent views all receive the shell's own
      processing signal, and the admin view its last analysis. */
  lemma SharedProcessingSignal(s: AppState)
    ensures RenderActiveTab(s).AnalysisView? ==> RenderActiveTab(s).isProcessing == s.isProcessing
    ensures RenderActiveTab(s).WorkflowView? ==> RenderActiveTab(s).isProcessing == s.isProcessing
    ensures RenderActiveTab(s).InterAgentView? ==> RenderActiveTab(s).isProcessing == s.isProcessing
    ensures RenderActiveTab(s).AdminView? ==> RenderActiveTab(s).lastAnalysis == s.lastAnalysis
  {
  }

  /** Choosing a known tab in the sidebar shows that tab's view, and it is fed
      the shell's current signals. */
  lemma TabSelectionShowsTab(s: AppState, tab: string)
    requires tab in KnownTabs
    ensures ViewTab(RenderActiveTab(ChangeTab(s, tab))) == Some(tab)
    ensures ChangeTab(s, tab).isProcessing == s.isProcessing && ChangeTab(s, tab).lastAnalysis == s.lastAnalysis
  {
  }

  /** Opening or closing the welcome modal changes neither the view under it
      nor the processing signal. */
  lemma WelcomeModalKeepsView(s: AppState, shown: bool)
    ensures RenderActiveTab(SetWelcome(s, shown)) == RenderActiveTab(s)
    ensures SetWelcome(s, shown).showWelcomeModal == shown && SetWelcome(s, shown).isProcessing == s.isProcessing
  {
  }

  /** The shell component's state. */
  class Application {
    var activeTab: string
    var showWelcomeModal: bool
    var isProcessing: bool
    var tourRunning: bool
    var lastAnalysis: Option<Analysis>
    var pendingCompletions: nat

    function State(): AppState
      reads this
    {
      AppState(activeTab, showWelcomeModal, isProcessing, tourRunning, lastAnalysis, pendingCompletions)
    }

    constructor ()
      ensures State() == InitialApp
    {
      activeTab := "chat";
      showWelcomeModal := true;
      isProcessing := false;
      tourRunning := false;
      lastAnalysis := None;
      pendingCompletions := 0;
    }

    method HandleAnalysisRequest()
      modifies this
      ensures State() == RequestAnalysis(old(State()))
    {
      isProcessing := true;
      pendingCompletions := pendingCompletions + 1;
    }

    /** The completion timer fires. */
    method FireCompletion()
      modifies this
      ensures State() == CompleteAnalysis(old(State()))
    {
      if pendingCompletions == 0 {
        return;
      }
      isProcessing := false;
      lastAnalysis := Some(SampleAnalysis);
      pendingCompletions := pendingCompletions - 1;
    }

    method HandleTourStart()
      modifies this
      ensures State() == TourStart(old(State()))
    {
      showWelcomeModal := false;
      tourRunning := true;
      activeTab := "analysis";
    }

    method HandleTourFinish()
      modifies this
      ensures State() == TourFinish(old(State()))
    {
      tourRunning := false;
    }

    method SetActiveTab(tab: string)
      modifies this
      ensures State() == ChangeTab(old(State()), tab)
    {
      activeTab := tab;
    }

    method SetShowWelcomeModal(shown: bool)
      modifies this
      ensures State() == SetWelcome(old(State()), shown)
    {
      showWelcomeModal := shown;
    }
  }
}
