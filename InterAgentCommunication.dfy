/** The message replayer: while processing and not yet latched, an interval
    reveals one more message of a fixed catalog per tick; once processing is
    off, a latch that is never cleared fast-forwards to the whole catalog.
    What is shown is always a prefix of the catalog. The catalog is an input. */
module InterAgentCommunication {
  import opened Text

  /** One catalog message, without its payload, confidence and timestamp. */
  datatype AgentMessage = AgentMessage(fromAgent: string, toAgent: string, messageType: string)

  /** `getAgentName`: the four known agents by name, any other id unchanged. */
  function AgentName(agentId: string): (name: string)
    ensures (agentId !in {"communication-analysis", "behavior-profiling", "risk-scoring", "personalization"})
            ==> name == agentId
    ensures agentId == "communication-analysis" ==> name == "Communication Agent"
    ensures agentId == "behavior-profiling" ==> name == "Behavior Agent"
    ensures agentId == "risk-scoring" ==> name == "Risk Scoring Agent"
    ensures agentId == "personalization" ==> name == "Personalization Agent"
  {
    match agentId
    case "communication-analysis" => "Communication Agent"
    case "behavior-profiling" => "Behavior Agent"
    case "risk-scoring" => "Risk Scoring Agent"
    case "personalization" => "Personalization Agent"
    case _ => agentId
  }

  datatype AgentColor = Blue | Green | Yellow | Purple | Gray

  /** `getAgentColor`: the same four agents, grey for any other id. */
  function AgentColorOf(agentId: string): (c: AgentColor)
    ensures c == Gray <==> agentId !in {"communication-analysis", "behavior-profiling", "risk-scoring", "personalization"}
    ensures c == Blue <==> agentId == "communication-analysis"
    ensures c == Green <==> agentId == "behavior-profiling"
    ensures c == Yellow <==> agentId == "risk-scoring"
    ensures c == Purple <==> agentId == "personalization"
  {
    match agentId
    case "communication-analysis" => Blue
    case "behavior-profiling" => Green
    case "risk-scoring" => Yellow
    case "personalization" => Purple
    case _ => Gray
  }

  /** A known agent always gets its own name and colour, and the two tables
      cover the same ids. */
  lemma AgentTablesAgree(agentId: string)
    ensures AgentColorOf(agentId) == Gray <==> AgentName(agentId) == agentId
  {
  }

  /** The message type label: only the first `_` becomes a space. */
  function TypeLabel(m: AgentMessage): (shown: string)
    ensures |shown| == |m.messageType|
    ensures '_' !in m.messageType ==> shown == m.messageType
    ensures '_' in m.messageType ==>
              var k := IndexOf(m.messageType, '_');
              shown[k] == ' ' && shown[..k] == m.messageType[..k] && shown[k + 1..] == m.messageType[k + 1..]
  {
    ReplaceFirstSpec(m.messageType, '_', ' ');
    ReplaceFirst(m.messageType, '_', ' ')
  }

  /** `data_request` is labelled `data request`, and `risk_score_update`
      keeps its second underscore. */
  lemma TypeLabelExamples(from: string, to: string)
    ensures TypeLabel(AgentMessage(from, to, "data_request")) == "data request"
    ensures TypeLabel(AgentMessage(from, to, "risk_score_update")) == "risk score_update"
  {
    assert "data_request" == "data" + ['_'] + "request";
    assert "data request" == "data" + [' '] + "request";
    ReplaceFirstAfter("data", '_', ' ', "request");
    assert "risk_score_update" == "risk" + ['_'] + "score_update";
    assert "risk score_update" == "risk" + [' '] + "score_update";
    ReplaceFirstAfter("risk", '_', ' ', "score_update");
  }

  /** The component's state; `running` says whether an interval is live and
      `messageIndex` is that interval's own counter. */
  datatype ReplayState = ReplayState(isProcessing: bool, showAllMessages: bool, visibleMessages: nat,
                                     running: bool, messageIndex: nat)

  /** The effect body: replay while processing and not latched, fast-forward
      and latch once processing is off. The effect re-runs when the latch
      flips; that second run finds the state already fast-forwarded. */
  function Effect(len: nat, s: ReplayState): ReplayState {
    if s.isProcessing && !s.showAllMessages then s.(running := true, messageIndex := 0)
    else if !s.isProcessing then s.(showAllMessages := true, visibleMessages := len)
    else s
  }

  /** Mounting: nothing visible, latch off, then the effect runs. */
  function Mount(len: nat, isProcessing: bool): ReplayState {
    Effect(len, ReplayState(isProcessing, false, 0, false, 0))
  }

  /** The effect cleanup: the live interval, if any, is cleared. */
  function Cleared(s: ReplayState): ReplayState {
    s.(running := false)
  }

  /** A new processing flag from the shell: on a change the old interval is
      cleared and the effect runs again. */
  function WithProcessing(len: nat, s: ReplayState, p: bool): ReplayState {
    if p == s.isProcessing then s else Effect(len, Cleared(s).(isProcessing := p))
  }

  /** One interval tick. A cleared interval never fires again. */
  function Advance(len: nat, s: ReplayState): ReplayState {
    if !s.running then s
    else if s.messageIndex < len then s.(visibleMessages := s.messageIndex + 1, messageIndex := s.messageIndex + 1)
    else s.(running := false)
  }

  function Ticks(len: nat, s: ReplayState, k: nat): ReplayState {
    if k == 0 then s else Advance(len, Ticks(len, s, k - 1))
  }

  /** The state invariant: the count stays within the catalog; a latched
      replayer shows everything and runs no interval; an unlatched one is
      processing and shows exactly what its interval has revealed. */
  ghost predicate Invariant(len: nat, s: ReplayState) {
    s.visibleMessages <= len && s.messageIndex <= len
    && (s.showAllMessages ==> s.visibleMessages == len && !s.running)
    && (!s.showAllMessages ==> s.isProcessing && s.visibleMessages == s.messageIndex)
  }

  lemma MountInvariant(len: nat, isProcessing: bool)
    ensures Invariant(len, Mount(len, isProcessing))
    ensures Mount(len, true) == ReplayState(true, false, 0, true, 0)
  {
  }

  lemma StepsKeepInvariant(len: nat, s: ReplayState, p: bool)
    requires Invariant(len, s)
    ensures Invariant(len, Advance(len, s))
    ensures Invariant(len, WithProcessing(len, s, p))
    ensures Invariant(len, Cleared(s))
  {
  }

  /** A tick raises the count by exactly one until it reaches the catalog
      length; it never lowers it. */
  lemma AdvanceRaisesByOne(len: nat, s: ReplayState)
    requires Invariant(len, s) && s.running
    ensures s.visibleMessages < len ==> Advance(len, s).visibleMessages == s.visibleMessages + 1
    ensures s.visibleMessages == len ==> Advance(len, s).visibleMessages == len && !Advance(len, s).running
  {
  }

  /** During a run the count never decreases. */
  lemma {:induction false} TicksMonotone(len: nat, s: ReplayState, j: nat, k: nat)
    requires Invariant(len, s) && j <= k
    ensures Ticks(len, s, j).visibleMessages <= Ticks(len, s, k).visibleMessages
    ensures Invariant(len, Ticks(len, s, k))
  {
    if k > 0 {
      if j < k {
        TicksMonotone(len, s, j, k - 1);
      } else {
        TicksMonotone(len, s, j - 1, k - 1);
      }
      StepsKeepInvariant(len, Ticks(len, s, k - 1), true);
    }
  }

  /** Mounted while processing, tick `k` shows the first `k` messages; the
      tick after the whole catalog is shown stops the interval. */
  lemma {:induction false} ReplayReveals(len: nat, k: nat)
    ensures Ticks(len, Mount(len, true), k)
            == if k <= len then ReplayState(true, false, k, true, k) else ReplayState(true, false, len, false, len)
  {
    if k > 0 {
      ReplayReveals(len, k - 1);
    }
  }

  /** Processing off fast-forwards to the whole catalog and latches; doing it
      again changes nothing. */
  lemma FastForward(len: nat, s: ReplayState)
    requires Invariant(len, s) && s.isProcessing
    ensures var t := WithProcessing(len, s, false);
            t.showAllMessages && t.visibleMessages == len && !t.running
            && Effect(len, t) == t
  {
  }

  /** The latch is never cleared, and once set a new processing run starts no
      replay and leaves the count alone. */
  lemma LatchHolds(len: nat, s: ReplayState, p: bool)
    requires Invariant(len, s) && s.showAllMessages
    ensures WithProcessing(len, s, p).showAllMessages && Advance(len, s).showAllMessages
    ensures WithProcessing(len, s, p).visibleMessages == s.visibleMessages
    ensures !WithProcessing(len, s, p).running
  {
  }

  /** After the cleanup no earlier interval's tick mutates the state, and the
      messages already shown and the latch stay as they were. */
  lemma {:induction false} CancelledStaysPut(len: nat, s: ReplayState, k: nat)
    ensures Ticks(len, Cleared(s), k) == Cleared(s)
    ensures Ticks(len, Cleared(s), k).visibleMessages == s.visibleMessages
    ensures Ticks(len, Cleared(s), k).showAllMessages == s.showAllMessages
  {
    if k > 0 {
      CancelledStaysPut(len, s, k - 1);
    }
  }

  /** What is on screen: the first `visibleMessages` messages. */
  function Rendered(catalog: seq<AgentMessage>, visible: nat): (shown: seq<AgentMessage>)
    requires visible <= |catalog|
    ensures |shown| == visible
    ensures forall i :: 0 <= i < visible ==> shown[i] == catalog[i]
  {
    catalog[..visible]
  }

  /** The completion banner shows exactly when processing is off and every message is visible. */
  predicate BannerShown(len: nat, s: ReplayState) {
    !s.isProcessing && s.visibleMessages == len
  }

  /** The banner is up in every state the invariant admits with processing
      off: such a state is always fast-forwarded. */
  lemma BannerWhenIdle(len: nat, s: ReplayState)
    requires Invariant(len, s)
    ensures BannerShown(len, s) <==> !s.isProcessing
  {
  }

  /** The `Processing...` marker hangs under message `index` while processing
      and that message is the last one shown. */
  predicate MarkerShown(isProcessing: bool, visible: nat, index: nat) {
    isProcessing && index == visible - 1
  }

  /** At most one rendered message carries the marker, it is the last one,
      and the marker never shows once processing is off. */
  lemma MarkerOnLastShown(s: ReplayState, i: nat, j: nat)
    requires MarkerShown(s.isProcessing, s.visibleMessages, i) && MarkerShown(s.isProcessing, s.visibleMessages, j)
    ensures i == j && i + 1 == s.visibleMessages && s.isProcessing
  {
  }

  /** The replayer's mutable state over a fixed message catalog. */
  class Replayer {
    const catalog: seq<AgentMessage>
    var isProcessing: bool
    var showAllMessages: bool
    var visibleMessages: nat
    var running: bool
    var messageIndex: nat

    function State(): ReplayState
      reads this
    {
      ReplayState(isProcessing, showAllMessages, visibleMessages, running, messageIndex)
    }

    ghost predicate Valid()
      reads this
    {
      Invariant(|catalog|, State())
    }

    constructor (catalog: seq<AgentMessage>, isProcessing: bool)
      ensures this.catalog == catalog && State() == Mount(|catalog|, isProcessing) && Valid()
    {
      this.catalog := catalog;
      this.isProcessing := isProcessing;
      showAllMessages := false;
      visibleMessages := 0;
      running := false;
      messageIndex := 0;
      if isProcessing {
        running := true;
      } else {
        showAllMessages := true;
        visibleMessages := |catalog|;
      }
    }

    /** The messages currently on screen. */
    function Shown(): (shown: seq<AgentMessage>)
      requires Valid()
      reads this
      ensures shown == catalog[..visibleMessages]
    {
      Rendered(catalog, visibleMessages)
    }

    /** The cleanup on unmount or before the effect re-runs. */
    method Cancel()
      requires Valid()
      modifies this
      ensures State() == Cleared(old(State())) && Valid()
    {
      running := false;
    }

    method SetProcessing(p: bool)
      requires Valid()
      modifies this
      ensures State() == WithProcessing(|catalog|, old(State()), p) && Valid()
    {
      StepsKeepInvariant(|catalog|, State(), p);
      if p == isProcessing {
        return;
      }
      // A change to processing finds the latch set (the invariant ties an
      // unlatched replayer to processing), so only the fast-forward can run.
      running := false;
      isProcessing := p;
      if !isProcessing {
        showAllMessages := true;
        visibleMessages := |catalog|;
      }
    }

    method Tick()
      requires Valid()
      modifies this
      ensures State() == Advance(|catalog|, old(State())) && Valid()
    {
      StepsKeepInvariant(|catalog|, State(), isProcessing);
      if !running {
        return;
      }
      if messageIndex < |catalog| {
        visibleMessages := messageIndex + 1;
        messageIndex := messageIndex + 1;
      } else {
        running := false;
      }
    }
  }
}
