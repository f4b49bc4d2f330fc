/** The stage scheduler: while processing, an interval walks
    `activeAgentIndex` through the stage positions one per tick and, on the
    tick after the last stage, clears itself and sets the index back to -1.
    Each stage shows as active, completed or pending, derived from the
    processing flag and the index. The stage catalog is an input. */
module AgentWorkflow {

  /** The icons a stage may name; unknown names fall back to `Circle`. */
  datatype Icon = MessageSquare | User | Calculator | Brain | Circle

  function IconFor(key: string): (icon: Icon)
    ensures key !in {"MessageSquare", "User", "Calculator", "Brain"} ==> icon == Circle
    ensures icon == MessageSquare <==> key == "MessageSquare"
    ensures icon == User <==> key == "User"
    ensures icon == Calculator <==> key == "Calculator"
    ensures icon == Brain <==> key == "Brain"
  {
    match key
    case "MessageSquare" => MessageSquare
    case "User" => User
    case "Calculator" => Calculator
    case "Brain" => Brain
    case _ => Circle
  }

  datatype Stage = Stage(id: string, name: string, description: string, icon: string, processingTime: string)

  datatype Status = Pending | Active | Completed

  /** The three tests the component makes for stage `i`. */
  predicate IsActive(isProcessing: bool, active: int, i: int) { isProcessing && active == i }
  predicate IsCompleted(isProcessing: bool, active: int, i: int) { isProcessing && active > i }
  predicate IsPending(isProcessing: bool, active: int, i: int) { !isProcessing || active < i }

  /** The status shown for stage `i`: completed first, then active, else pending. */
  function StatusOf(isProcessing: bool, active: int, i: int): Status {
    if IsCompleted(isProcessing, active, i) then Completed
    else if IsActive(isProcessing, active, i) then Active
    else Pending
  }

  /** Exactly one of the three tests holds for every stage, and the status
      shown is that one. */
  lemma ExactlyOneStatus(isProcessing: bool, active: int, i: int)
    ensures IsActive(isProcessing, active, i) || IsCompleted(isProcessing, active, i) || IsPending(isProcessing, active, i)
    ensures !(IsActive(isProcessing, active, i) && IsCompleted(isProcessing, active, i))
    ensures !(IsActive(isProcessing, active, i) && IsPending(isProcessing, active, i))
    ensures !(IsCompleted(isProcessing, active, i) && IsPending(isProcessing, active, i))
    ensures StatusOf(isProcessing, active, i) == Active <==> IsActive(isProcessing, active, i)
    ensures StatusOf(isProcessing, active, i) == Pending <==> IsPending(isProcessing, active, i)
  {
  }

  /** The statuses of all `n` stages, in order. */
  function Statuses(n: nat, isProcessing: bool, active: int): (st: seq<Status>)
    ensures |st| == n
    ensures forall i :: 0 <= i < n ==> st[i] == StatusOf(isProcessing, active, i)
  {
    seq(n, i requires 0 <= i < n => StatusOf(isProcessing, active, i))
  }

  /** No holes: completed stages form a prefix, at most one stage is active
      and it follows that prefix, the rest are pending; with processing off
      every stage is pending. */
  lemma StatusesHaveNoHoles(n: nat, isProcessing: bool, active: int)
    ensures var st := Statuses(n, isProcessing, active);
            (forall i, j :: 0 <= j < i < n && st[i] == Completed ==> st[j] == Completed)
            && (forall i, j :: 0 <= i < j < n && st[i] != Completed ==> st[j] == Pending)
            && (forall i, j :: 0 <= i < n && 0 <= j < n && st[i] == Active && st[j] == Active ==> i == j)
            && (!isProcessing ==> forall i :: 0 <= i < n ==> st[i] == Pending)
  {
  }

  /** Since the index never reaches `n`, the last stage is never shown
      completed: a run never shows every stage completed. */
  lemma LastStageNeverCompleted(n: nat, isProcessing: bool, active: int)
    requires 0 < n && active < n
    ensures Statuses(n, isProcessing, active)[n - 1] != Completed
  {
  }

  /** The component's state; `running` says whether an interval is live and
      `index` is that interval's own counter. */
  datatype WorkflowState = WorkflowState(isProcessing: bool, activeAgentIndex: int, running: bool, index: nat)

  /** Mounting: the index starts at -1 and the effect runs for the initial
      processing flag. */
  function Mount(isProcessing: bool): WorkflowState {
    WorkflowState(isProcessing, -1, isProcessing, 0)
  }

  /** The effect cleanup: the live interval, if any, is cleared. */
  function Cleared(s: WorkflowState): WorkflowState {
    s.(running := false)
  }

  /** A new processing flag from the shell. When it changes, the old
      interval is cleared and, if processing, a new one starts with its
      counter at 0; the index itself is left as it was. */
  function WithProcessing(s: WorkflowState, p: bool): WorkflowState {
    if p == s.isProcessing then s
    else
      var c := Cleared(s);
      if p then c.(isProcessing := true, running := true, index := 0)
      else c.(isProcessing := false)
  }

  /** One interval tick. A cleared interval never fires again. */
  function Advance(n: nat, s: WorkflowState): WorkflowState {
    if !s.running then s
    else if s.index < n then s.(activeAgentIndex := s.index, index := s.index + 1)
    else s.(running := false, activeAgentIndex := -1)
  }

  function Ticks(n: nat, s: WorkflowState, k: nat): WorkflowState {
    if k == 0 then s else Advance(n, Ticks(n, s, k - 1))
  }

  /** The state invariant: the index names a stage or is -1, the counter is
      at most `n`, a live interval belongs to a processing run, and once it
      has ticked the index is one behind its counter. */
  ghost predicate Invariant(n: nat, s: WorkflowState) {
    -1 <= s.activeAgentIndex < n && s.index <= n
    && (s.running ==> s.isProcessing)
    && (s.running && s.index > 0 ==> s.activeAgentIndex == s.index - 1)
  }

  lemma MountInvariant(n: nat, isProcessing: bool)
    ensures Invariant(n, Mount(isProcessing)) && Mount(isProcessing).activeAgentIndex == -1
  {
  }

  lemma StepsKeepInvariant(n: nat, s: WorkflowState, p: bool)
    requires Invariant(n, s)
    ensures Invariant(n, Advance(n, s)) && Invariant(n, WithProcessing(s, p)) && Invariant(n, Cleared(s))
  {
  }

  /** Starting a run does not reset the index: until the first tick the
      stages are classified with whatever index the previous run left. */
  lemma StartKeepsIndex(s: WorkflowState)
    requires !s.isProcessing
    ensures WithProcessing(s, true).activeAgentIndex == s.activeAgentIndex
    ensures WithProcessing(s, true).running && WithProcessing(s, true).index == 0
  {
  }

  /** From a fresh start, tick `k` (for `1 <= k <= n`) makes stage `k - 1`
      active; the interval is still live. */
  lemma {:induction false} TicksWalkStages(n: nat, s: WorkflowState, k: nat)
    requires s.running && s.index == 0 && k <= n
    ensures Ticks(n, s, k) == s.(activeAgentIndex := if k == 0 then s.activeAgentIndex else k - 1, index := k)
  {
    if k > 0 {
      TicksWalkStages(n, s, k - 1);
    }
  }

  /** During a run started from a fresh interval, tick `k` shows the stages
      before `k - 1` completed, stage `k - 1` active and the rest pending. */
  lemma RunStatuses(n: nat, s: WorkflowState, k: nat)
    requires s.running && s.isProcessing && s.index == 0 && 1 <= k <= n
    ensures var st := Statuses(n, true, Ticks(n, s, k).activeAgentIndex);
            forall i :: 0 <= i < n ==>
              st[i] == (if i < k - 1 then Completed else if i == k - 1 then Active else Pending)
  {
    TicksWalkStages(n, s, k);
  }

  /** A processing flag that does not change leaves the state alone: the
      effect does not re-run. */
  lemma SameFlagNoRestart(s: WorkflowState)
    ensures WithProcessing(s, s.isProcessing) == s
    ensures WithProcessing(WithProcessing(s, true), true) == WithProcessing(s, true)
  {
  }

  /** Tick `n + 1` clears the interval and resets the index to -1; from then
      on ticks change nothing. */
  lemma {:induction false} TicksEndRun(n: nat, s: WorkflowState, extra: nat)
    requires s.running && s.index == 0
    ensures var e := Ticks(n, s, n + 1);
            !e.running && e.activeAgentIndex == -1 && e.isProcessing == s.isProcessing
    ensures Ticks(n, s, n + 1 + extra) == Ticks(n, s, n + 1)
  {
    TicksWalkStages(n, s, n);
    if extra > 0 {
      TicksEndRun(n, s, extra - 1);
    }
  }

  /** After the cleanup no earlier interval's tick mutates the state. */
  lemma {:induction false} CancelledStaysPut(n: nat, s: WorkflowState, k: nat)
    ensures Ticks(n, Cleared(s), k) == Cleared(s)
  {
    if k > 0 {
      CancelledStaysPut(n, s, k - 1);
    }
  }

  /** The stage scheduler's mutable state over a fixed stage catalog. */
  class Workflow {
    const stages: seq<Stage>
    var isProcessing: bool
    var activeAgentIndex: int
    var running: bool
    var index: nat

    function State(): WorkflowState
      reads this
    {
      WorkflowState(isProcessing, activeAgentIndex, running, index)
    }

    ghost predicate Valid()
      reads this
    {
      Invariant(|stages|, State())
    }

    constructor (stages: seq<Stage>, isProcessing: bool)
      ensures this.stages == stages && State() == Mount(isProcessing) && Valid()
    {
      this.stages := stages;
      this.isProcessing := isProcessing;
      activeAgentIndex := -1;
      running := isProcessing;
      index := 0;
    }

    /** The status of every stage as the component shows it now. */
    function CurrentStatuses(): (st: seq<Status>)
      requires Valid()
      reads this
      ensures |st| == |stages|
      ensures |st| > 0 ==> st[|st| - 1] != Completed
      ensures !isProcessing ==> forall i :: 0 <= i < |st| ==> st[i] == Pending
    {
      StatusesHaveNoHoles(|stages|, isProcessing, activeAgentIndex);
      Statuses(|stages|, isProcessing, activeAgentIndex)
    }

    /** The cleanup on unmount or before the effect re-runs. */
    method Cancel()
      requires Valid()
      modifies this
      ensures State() == Cleared(old(State())) && Valid()
    {
      running := false;
    }

    method SetProcessing(p: bool)
      requires Valid()
      modifies this
      ensures State() == WithProcessing(old(State()), p) && Valid()
    {
      if p == isProcessing {
        return;
      }
      Cancel();
      isProcessing := p;
      if p {
        index := 0;
        running := true;
      }
    }

    method Tick()
      requires Valid()
      modifies this
      ensures State() == Advance(|stages|, old(State())) && Valid()
    {
      if !running {
        return;
      }
      if index < |stages| {
        activeAgentIndex := index;
        index := index + 1;
      } else {
        running := false;
        activeAgentIndex := -1;
      }
    }
  }
}
