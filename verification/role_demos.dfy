/** The role-based workflow demo: three fixed workflows, one per team tab, and
    a cursor that an interval steps through the active tab's workflow. */
module RoleDemos {
  import opened Wrappers

  datatype WorkflowStep = WorkflowStep(stepLabel: string, description: string)

  datatype RoleDemo = RoleDemo(id: string, title: string, subtitle: string, workflow: seq<WorkflowStep>)

  const Demos: seq<RoleDemo> := [
    RoleDemo("sales", "Sales", "Automate follow-ups and lead scoring", [
      WorkflowStep("Lead received", "New lead captured from website form"),
      WorkflowStep("Auto-score lead", "AI evaluates fit and intent signals"),
      WorkflowStep("Draft follow-up", "Personalized email generated"),
      WorkflowStep("Schedule meeting", "Calendar link added, follow-up sent")
    ]),
    RoleDemo("finance", "Finance", "Streamline invoice reconciliation", [
      WorkflowStep("Invoice received", "New invoice captured via email"),
      WorkflowStep("Auto-match PO", "AI matches to purchase orders"),
      WorkflowStep("Reconcile amounts", "Validates totals and line items"),
      WorkflowStep("Ready for approval", "Routed to approver with summary")
    ]),
    RoleDemo("hr", "HR", "Accelerate candidate screening", [
      WorkflowStep("Applications arrive", "12 new candidates for Engineering role"),
      WorkflowStep("Parse resumes", "AI extracts skills and experience"),
      WorkflowStep("Screen candidates", "Ranked against job requirements"),
      WorkflowStep("Schedule interviews", "Top 5 invited to interview")
    ])
  ]

  const InitialTab := "sales"

  // ---------------------------------------------------------------------------
  // Lookup by tab

  /** The first demo whose id is `id`, or None when no demo has it. */
  function FindDemo(demos: seq<RoleDemo>, id: string): (r: Option<RoleDemo>)
    ensures r.None? <==> forall i :: 0 <= i < |demos| ==> demos[i].id != id
    ensures r.Some? ==> r.value.id == id && r.value in demos
    ensures r.Some? ==> exists k :: 0 <= k < |demos| && r.value == demos[k]
                                    && forall j :: 0 <= j < k ==> demos[j].id != id
  {
    if |demos| == 0 then None
    else if demos[0].id == id then Some(demos[0])
    else FindDemo(demos[1..], id)
  }

  predicate DistinctIds(demos: seq<RoleDemo>) {
    forall i, j :: 0 <= i < j < |demos| ==> demos[i].id != demos[j].id
  }

  /** With distinct ids, looking up a demo's id finds that very demo. */
  lemma {:induction false} FindDemoUnique(demos: seq<RoleDemo>, k: int)
    requires DistinctIds(demos) && 0 <= k < |demos|
    ensures FindDemo(demos, demos[k].id) == Some(demos[k])
  {
    if k > 0 {
      assert demos[0].id != demos[k].id;
      assert demos[1..][k - 1] == demos[k];
      FindDemoUnique(demos[1..], k - 1);
    }
  }

  /** The shipped tabs are sales, finance and hr, all distinct, and each
      workflow has four steps. */
  lemma ShippedDemos()
    ensures |Demos| == 3 && DistinctIds(Demos)
    ensures Demos[0].id == "sales" && Demos[1].id == "finance" && Demos[2].id == "hr"
    ensures forall i :: 0 <= i < |Demos| ==> |Demos[i].workflow| == 4
  {
  }

  /** Every shipped tab finds its own demo, whose workflow has four steps. */
  lemma LookupShippedTab(k: int)
    requires 0 <= k < |Demos|
    ensures FindDemo(Demos, Demos[k].id) == Some(Demos[k])
    ensures |FindDemo(Demos, Demos[k].id).value.workflow| == 4
  {
    ShippedDemos();
    FindDemoUnique(Demos, k);
  }

  function WorkflowLength(demo: Option<RoleDemo>): Option<nat> {
    if demo.Some? then Some(|demo.value.workflow|) else None
  }

  // ---------------------------------------------------------------------------
  // The cursor

  /** One interval tick over a workflow of `len` steps: the new cursor and
      whether this tick stopped the run. */
  function CursorTick(prev: int, len: int): (int, bool) {
    if prev >= len - 1 then (prev, true) else (prev + 1, false)
  }

  /** Cursor and stop flag after `k` ticks of a run that started at step 0;
      once a tick has stopped the run its interval is cleared and no later
      tick fires. */
  function Trace(len: int, k: nat): (int, bool)
    decreases k
  {
    if k == 0 then (0, false)
    else
      var prev := Trace(len, k - 1);
      if prev.1 then prev else CursorTick(prev.0, len)
  }

  /** The tick on which a run over `len` steps stops. */
  function StopTick(len: int): nat {
    if len >= 1 then len else 1
  }

  /** The run visits 0, 1, ..., one step per tick, and stops on tick `len`
      holding the last step (a workflow without steps stops on the first tick). */
  lemma {:induction false} TraceExact(len: int, k: nat)
    ensures Trace(len, k) == if k < StopTick(len) then (k, false) else (StopTick(len) - 1, true)
    decreases k
  {
    if k > 0 {
      TraceExact(len, k - 1);
    }
  }

  /** Throughout a run over at least one step the cursor stays in range. */
  lemma CursorInRange(len: int, k: nat)
    requires len >= 1
    ensures 0 <= Trace(len, k).0 <= len - 1
    ensures Trace(len, k).0 == Min(k, len - 1)
  {
    TraceExact(len, k);
  }

  /** Each shipped workflow stops on the fourth tick, on step 3. */
  lemma ShippedRunStopsOnFourthTick(k: int)
    requires 0 <= k < |Demos|
    ensures var len := |Demos[k].workflow|;
      !Trace(len, 3).1 && Trace(len, 4) == (3, true)
  {
    ShippedDemos();
    TraceExact(|Demos[k].workflow|, 3);
    TraceExact(|Demos[k].workflow|, 4);
  }

  // ---------------------------------------------------------------------------
  // What the visualizer and the banner show

  predicate IsActive(isSimulating: bool, currentStep: int, index: int) {
    isSimulating && index == currentStep
  }

  predicate IsCompleted(isSimulating: bool, currentStep: int, index: int) {
    isSimulating && index < currentStep
  }

  /** The "Workflow completed!" banner. */
  predicate ShowsCompletion(isSimulating: bool, currentStep: int, len: int) {
    isSimulating && currentStep >= len - 1
  }

  function ActiveSteps(isSimulating: bool, currentStep: int, len: nat): set<nat> {
    set i: nat | i < len && IsActive(isSimulating, currentStep, i)
  }

  function CompletedSteps(isSimulating: bool, currentStep: int, len: nat): set<nat> {
    set i: nat | i < len && IsCompleted(isSimulating, currentStep, i)
  }

  /** Step i comes before step n. Naming the comparison gives the
      comprehension in Below a term to trigger on. */
  predicate Precedes(i: int, n: int) {
    i < n
  }

  /** The step indices before step n: 0, 1, ..., n - 1. */
  function Below(n: nat): set<nat> {
    set i: nat | i < n && Precedes(i, n)
  }

  lemma {:induction false} BelowSize(n: nat)
    ensures |Below(n)| == n
  {
    if n > 0 {
      assert Below(n) == Below(n - 1) + {n - 1};
      BelowSize(n - 1);
    }
  }

  /** When no run shows, no step is active and none completed. */
  lemma IdleClassification(currentStep: int, len: nat)
    ensures ActiveSteps(false, currentStep, len) == {}
    ensures CompletedSteps(false, currentStep, len) == {}
  {
  }

  /** During a run at step c, exactly step c is active, exactly the c steps
      before it are completed, and no step is both. */
  lemma RunningClassification(currentStep: nat, len: nat)
    requires currentStep < len
    ensures ActiveSteps(true, currentStep, len) == {currentStep}
    ensures CompletedSteps(true, currentStep, len) == Below(currentStep)
    ensures |CompletedSteps(true, currentStep, len)| == currentStep
    ensures ActiveSteps(true, currentStep, len) !! CompletedSteps(true, currentStep, len)
  {
    assert CompletedSteps(true, currentStep, len) == Below(currentStep);
    BelowSize(currentStep);
  }

  /** With the cursor in range, the banner shows exactly on the last step of a run. */
  lemma BannerOnLastStep(isSimulating: bool, currentStep: int, len: int)
    requires 0 <= currentStep < len
    ensures ShowsCompletion(isSimulating, currentStep, len) <==> isSimulating && currentStep == len - 1
  {
  }

  /** Along a run, the banner appears from tick len - 1 on, until the run settles. */
  lemma BannerDuringRun(len: int, k: nat)
    requires len >= 1
    ensures ShowsCompletion(true, Trace(len, k).0, len) <==> k >= len - 1
  {
    TraceExact(len, k);
  }

  // ---------------------------------------------------------------------------
  // The component state

  /** The role demo section's state: the selected tab and the run's display. */
  class Panel {
    var activeTab: string
    var isSimulating: bool
    var currentStep: int

    constructor ()
      ensures activeTab == InitialTab && !isSimulating && currentStep == 0
    {
      activeTab := InitialTab;
      isSimulating := false;
      currentStep := 0;
    }

    /** The Simulate Workflow button: show a run from step 0, and give the
        number of steps of the active tab's workflow, which the interval then
        walks; None when no demo has the tab's id, and then no interval starts. */
    method Simulate() returns (workflowLength: Option<nat>)
      modifies this
      ensures isSimulating && currentStep == 0 && activeTab == old(activeTab)
      ensures workflowLength == WorkflowLength(FindDemo(Demos, activeTab))
    {
      isSimulating := true;
      currentStep := 0;
      var activeDemo := FindDemo(Demos, activeTab);
      if activeDemo.None? {
        return None;
      }
      workflowLength := Some(|activeDemo.value.workflow|);
    }

    /** One firing of the interval of a run over `workflowLength` steps. */
    method Tick(workflowLength: int) returns (stopped: bool)
      modifies this
      ensures (currentStep, stopped) == CursorTick(old(currentStep), workflowLength)
      ensures isSimulating == old(isSimulating) && activeTab == old(activeTab)
    {
      if currentStep >= workflowLength - 1 {
        stopped := true;
      } else {
        currentStep := currentStep + 1;
        stopped := false;
      }
    }

    /** The delayed callback scheduled by the stopping tick. */
    method Settle()
      modifies this
      ensures !isSimulating && currentStep == 0 && activeTab == old(activeTab)
    {
      isSimulating := false;
      currentStep := 0;
    }

    /** Selecting a tab hides any run and puts the cursor back to 0. */
    method ChangeTab(value: string)
      modifies this
      ensures activeTab == value && !isSimulating && currentStep == 0
    {
      activeTab := value;
      isSimulating := false;
      currentStep := 0;
    }

    /** A whole run with no tab change in between: the button, the interval
        firing until a tick stops it, then the settle callback. The number of
        ticks is that of Trace. */
    method RunWorkflow() returns (ticks: nat)
      modifies this
      ensures activeTab == old(activeTab)
      ensures var found := FindDemo(Demos, activeTab);
        (found.None? ==> ticks == 0 && isSimulating && currentStep == 0)
        && (found.Some? ==> ticks == StopTick(|found.value.workflow|) && !isSimulating && currentStep == 0)
    {
      var workflowLength := Simulate();
      ticks := 0;
      if workflowLength.Some? {
        var len := workflowLength.value;
        var stopped := false;
        while !stopped
          invariant isSimulating && activeTab == old(activeTab)
          invariant (currentStep, stopped) == Trace(len, ticks)
          invariant ticks <= StopTick(len)
          invariant stopped <==> ticks == StopTick(len)
          decreases StopTick(len) - ticks
        {
          TraceExact(len, ticks);
          TraceExact(len, ticks + 1);
          stopped := Tick(len);
          ticks := ticks + 1;
        }
        Settle();
      }
    }
  }
}
