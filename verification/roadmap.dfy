/** The implementation roadmap: six step cards, of which at most one is open
    at a time; clicking a card opens it, or closes it when it is already open. */
module Roadmap {
  import opened Wrappers

  datatype RoadmapStep = RoadmapStep(
    id: int,
    title: string,
    subtitle: string,
    description: string,
    details: seq<string>,
    duration: string)

  const Steps: seq<RoadmapStep> := [
    RoadmapStep(1, "Task Discovery", "Week 1-2",
      "We map your current workflows and identify automation opportunities.",
      ["Interview key stakeholders across departments",
       "Document existing processes and pain points",
       "Identify high-impact automation candidates",
       "Create a prioritized task inventory"],
      "2 weeks"),
    RoadmapStep(2, "Assessment", "Week 3",
      "Evaluate automation potential and define success metrics.",
      ["Analyze task complexity and frequency",
       "Calculate potential time and cost savings",
       "Define KPIs and success criteria",
       "Create ROI projections"],
      "1 week"),
    RoadmapStep(3, "Decisions", "Week 4",
      "Finalize the automation roadmap and implementation plan.",
      ["Prioritize automations by impact and effort",
       "Define human-in-the-loop checkpoints",
       "Establish governance and approval workflows",
       "Create implementation timeline"],
      "1 week"),
    RoadmapStep(4, "Automation Setup", "Week 5-8",
      "Configure and deploy your first set of automations.",
      ["Connect WorkMate AI to your systems",
       "Configure automation rules and triggers",
       "Set up monitoring and alerts",
       "Train team members on new workflows"],
      "4 weeks"),
    RoadmapStep(5, "Live Operations", "Ongoing",
      "Monitor performance and optimize for maximum impact.",
      ["Real-time performance monitoring",
       "Automatic anomaly detection",
       "Weekly impact reports",
       "Continuous feedback collection"],
      "Ongoing"),
    RoadmapStep(6, "Improvement", "Continuous",
      "Expand automation coverage and refine for better results.",
      ["Analyze automation performance data",
       "Identify new automation opportunities",
       "Refine existing automations",
       "Scale successful patterns across teams"],
      "Continuous")
  ]

  /** The open card on first render: step 1. */
  const InitialActiveStep: Option<int> := Some(1)

  predicate IsActive(activeStep: Option<int>, step: RoadmapStep) {
    activeStep == Some(step.id)
  }

  /** The new open card after a click on the card with id `id`. */
  function Click(activeStep: Option<int>, id: int): Option<int> {
    if activeStep == Some(id) then None else Some(id)
  }

  /** The part of a card shown below its description while it is open: the
      detail lines and the duration line. */
  datatype Expansion = Expansion(details: seq<string>, duration: string)

  /** What a card shows in its expandable part: the expansion when open, nothing when closed. */
  function Expanded(activeStep: Option<int>, step: RoadmapStep): Option<Expansion> {
    if IsActive(activeStep, step) then Some(Expansion(step.details, step.duration)) else None
  }

  /** The open card after a sequence of clicks on the given ids. */
  function Clicks(activeStep: Option<int>, ids: seq<int>): Option<int>
    decreases |ids|
  {
    if |ids| == 0 then activeStep else Clicks(Click(activeStep, ids[0]), ids[1..])
  }

  predicate DistinctIds(steps: seq<RoadmapStep>) {
    forall i, j :: 0 <= i < j < |steps| ==> steps[i].id != steps[j].id
  }

  /** Indices of the cards that are open. */
  function ActiveCards(activeStep: Option<int>, steps: seq<RoadmapStep>): set<nat> {
    set i: nat | i < |steps| && IsActive(activeStep, steps[i])
  }

  /** Indices of the cards that show their expandable part. */
  function ExpandedCards(activeStep: Option<int>, steps: seq<RoadmapStep>): set<nat> {
    set i: nat | i < |steps| && Expanded(activeStep, steps[i]).Some?
  }

  // ---------------------------------------------------------------------------

  /** The shipped cards carry ids 1 to 6 in order, all distinct, and card 1 starts open. */
  lemma ShippedSteps()
    ensures |Steps| == 6 && DistinctIds(Steps)
    ensures forall i :: 0 <= i < |Steps| ==> Steps[i].id == i + 1
    ensures IsActive(InitialActiveStep, Steps[0])
  {
  }

  /** Clicking card k, with distinct ids: when card k was open no card is open
      afterwards, and otherwise card k is the only open card, whichever card
      was open before. */
  lemma ClickToggles(activeStep: Option<int>, steps: seq<RoadmapStep>, k: nat)
    requires DistinctIds(steps) && k < |steps|
    ensures ActiveCards(Click(activeStep, steps[k].id), steps)
            == if IsActive(activeStep, steps[k]) then {} else {k}
  {
    if !IsActive(activeStep, steps[k]) {
      ExactlyOneActive(steps, k);
    }
  }

  /** Two clicks on the same card give back the previous state exactly when
      no card or that very card was open; from another open card they leave
      every card closed. */
  lemma ClickTwice(activeStep: Option<int>, id: int)
    ensures Click(Click(activeStep, id), id) == activeStep
            <==> activeStep == None || activeStep == Some(id)
    ensures activeStep != None && activeStep != Some(id) ==> Click(Click(activeStep, id), id) == None
  {
  }

  /** Card 2 open, two clicks on card 1: every card ends closed. */
  lemma ClickTwiceFromOtherCard()
    ensures Click(Click(Some(2), 1), 1) == None
  {
  }

  /** With distinct ids, at most one card is open. */
  lemma AtMostOneActive(activeStep: Option<int>, steps: seq<RoadmapStep>)
    requires DistinctIds(steps)
    ensures forall i, j ::
              (0 <= i < |steps| && 0 <= j < |steps|
               && IsActive(activeStep, steps[i]) && IsActive(activeStep, steps[j])) ==> i == j
    ensures |ActiveCards(activeStep, steps)| <= 1
  {
    var cards := ActiveCards(activeStep, steps);
    if cards != {} {
      var i :| i in cards;
      assert cards == {i};
    }
  }

  /** When the open id belongs to card k and ids are distinct, card k is the only open card. */
  lemma ExactlyOneActive(steps: seq<RoadmapStep>, k: nat)
    requires DistinctIds(steps) && k < |steps|
    ensures ActiveCards(Some(steps[k].id), steps) == {k}
  {
  }

  /** With distinct ids, the cards showing details and duration are exactly the
      open cards, so at most one; when card k is open it is the one, showing its
      own details and duration. */
  lemma DetailsOnlyWhenActive(activeStep: Option<int>, steps: seq<RoadmapStep>)
    requires DistinctIds(steps)
    ensures ExpandedCards(activeStep, steps) == ActiveCards(activeStep, steps)
    ensures |ExpandedCards(activeStep, steps)| <= 1
    ensures activeStep == None ==> ExpandedCards(activeStep, steps) == {}
    ensures forall k :: 0 <= k < |steps| && activeStep == Some(steps[k].id) ==>
              ExpandedCards(activeStep, steps) == {k}
              && Expanded(activeStep, steps[k]) == Some(Expansion(steps[k].details, steps[k].duration))
  {
    assert ExpandedCards(activeStep, steps) == ActiveCards(activeStep, steps);
    AtMostOneActive(activeStep, steps);
    forall k | 0 <= k < |steps| && activeStep == Some(steps[k].id)
      ensures ExpandedCards(activeStep, steps) == {k}
    {
      ExactlyOneActive(steps, k);
    }
  }

  /** Whatever cards are clicked, the state is either all closed or exactly
      one shipped card open. */
  lemma {:induction false} ClicksKeepOneOrNone(activeStep: Option<int>, ids: seq<int>)
    requires activeStep == None || exists k :: 0 <= k < |Steps| && activeStep == Some(Steps[k].id)
    requires forall i :: 0 <= i < |ids| ==> exists k :: 0 <= k < |Steps| && ids[i] == Steps[k].id
    ensures var r := Clicks(activeStep, ids);
      r == None || exists k :: 0 <= k < |Steps| && ActiveCards(r, Steps) == {k}
    decreases |ids|
  {
    ShippedSteps();
    if |ids| == 0 {
      if activeStep != None {
        var k :| 0 <= k < |Steps| && activeStep == Some(Steps[k].id);
        ExactlyOneActive(Steps, k);
      }
    } else {
      var next := Click(activeStep, ids[0]);
      assert next == None || exists k :: 0 <= k < |Steps| && next == Some(Steps[k].id) by {
        if next != None {
          var k :| 0 <= k < |Steps| && ids[0] == Steps[k].id;
          assert next == Some(Steps[k].id);
        }
      }
      assert forall i :: 0 <= i < |ids[1..]| ==> ids[1..][i] == ids[i + 1];
      ClicksKeepOneOrNone(next, ids[1..]);
    }
  }
}
