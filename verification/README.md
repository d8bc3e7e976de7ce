# Simulated widgets of the WorkMate AI landing page, in Dafny

The landing page is almost entirely static markup. Three of its sections hold
state that changes in an exact way, and this project models those three:

- **Dashboard** (`dashboard.dfy`, module `Dashboard`). The live activity log
  holds eight mock task records and three counters: impact score, minutes
  saved and tasks completed. While simulating, an interval tick completes the
  first record in flight and credits the counters. The same tick then starts
  the first waiting record. Reset restores the mock data. The tick is the pure
  function `Step` over a `Snapshot`. The class `Simulator` holds the
  component's state, and its `Tick` method is proved to perform `Step`.
- **Role demos** (`role_demos.dfy`, module `RoleDemos`). There are three team
  tabs (sales, finance, hr), each with a four-step workflow. "Simulate
  Workflow" shows a run from step 0. An interval then advances the cursor
  until it holds on the last step. A delayed callback hides the run again.
  The class `Panel` holds the tab, the simulating flag and the cursor. The
  visualizer's active/completed classification and the completion banner are
  predicates.
- **Roadmap** (`roadmap.dfy`, module `Roadmap`). There are six step cards. A
  click opens a card, or closes it when it is already open. The open card
  is an `Option<int>`, and a click is the pure function `Click`.

`wrappers.dfy` holds `Option`, `Min` and `Max`.

Timer callbacks are explicit calls here. `Dashboard.Simulator.Tick` is one
firing of the 2000 ms interval. `RoleDemos.Panel.Tick` is one firing of the
1500 ms interval. `RoleDemos.Panel.Settle` is the 1000 ms timeout.
`RoleDemos.Panel.RunWorkflow` drives a whole run by calling these in order.

### Behaviour worth knowing

- The mock log starts with two records in flight (indices 2 and 3), as
  `Dashboard.SeedTwoInFlight` states. The invariant that the model proves
  over every state reached from the mock data is `InFlightWhileWaiting`:
  while a record waits, some record is in flight
  (`Dashboard.SeedKeepsInFlightWhileWaiting`).
- The counter of completed tasks starts at 24. The first tick brings it to
  25 and adds 15 minutes to the minutes saved.
- The idle cursor of the workflow demo is 0. A run over n steps stops on
  tick n, which is tick 4 for every shipped workflow.
- Changing tab hides the run and resets the cursor. It does not clear the
  running interval or the pending settle timeout. In the model, `ChangeTab`
  changes only the three fields, and nothing stops later `Tick` or `Settle`
  calls.
- Clicking the same roadmap card twice restores the previous state only when
  no card, or that same card, was open (`Roadmap.ClickTwice`). When another
  card was open, two clicks leave every card closed.
- In general a tick can raise the number of records in flight, from 0 to 1,
  when none is in flight and one is waiting. No state reached from the mock
  data is like that. Under `InFlightWhileWaiting` the number never grows
  (`Dashboard.ProcessingNeverIncreases`).
- A tick that completes a record sets an impact score above 100 to 100, and
  a tick with nothing in flight leaves the score alone
  (`Dashboard.StepCounters`). The score only rises when it starts below 100.

## Model

| member | source | states |
|---|---|---|
| `Dashboard.FindIndex` | src/components/sections/Dashboard.tsx:58-59 | -1 exactly when no record has the status; otherwise the record at the result has it and no earlier record does (first match in list order) |
| `Dashboard.SeedShape` | src/components/sections/Dashboard.tsx:37-50 | the mock log's statuses are completed ×2, processing ×2, pending ×4 in that order (counts 2/2/4), and the counters start at 87, 156 and 24 |
| `Dashboard.SeedTwoInFlight` | src/components/sections/Dashboard.tsx:40 | records 2 and 3 of the mock log are both processing |
| `Dashboard.SeedMinutes` | src/components/sections/Dashboard.tsx:26-35 | the completed records of the mock log carry 20 minutes; all records together carry 91 |
| `Dashboard.StepLocality` | src/components/sections/Dashboard.tsx:56-73 | a tick keeps the length and every field but the status; only the first pre-tick processing index and the first pre-tick pending index change, to completed and processing |
| `Dashboard.StepMonotone` | src/components/sections/Dashboard.tsx:58-70 | each status stays or advances one step along pending → processing → completed; a completed record never changes |
| `Dashboard.StepCounters` | src/components/sections/Dashboard.tsx:58-66 | with no record in flight the counters are unchanged; otherwise the task counter gains exactly the one record the log newly counts as completed, the minutes counter gains exactly what the completed records' minutes gain, which is the minutes of the first record that was in flight and is now completed, and the score gains 1 below 100 and is 100 from 100 on |
| `Dashboard.ScoreCap` | src/components/sections/Dashboard.tsx:65 | a score at most 100 never decreases and never passes 100; no tick takes the score above max(score, 100) |
| `Dashboard.StepCounts` | src/components/sections/Dashboard.tsx:58-70 | completed count +1 iff a record was processing; pending count −1 iff one was pending; processing count −1 and +1 accordingly; credited minutes grow by the completed record's minutes |
| `Dashboard.CountersTrackLog` | src/components/sections/Dashboard.tsx:61-66 | minutes saved minus the minutes of the completed records, and tasks completed minus the number of completed records, are kept by every tick |
| `Dashboard.StepTerminates` | src/components/sections/Dashboard.tsx:58-70 | a tick that changes anything strictly lowers 2·#pending + #processing; a tick is a no-op exactly when every record is completed |
| `Dashboard.ProcessingNeverIncreases` | src/components/sections/Dashboard.tsx:58-70 | while some record waits and some is in flight, this stays true, the processing count holds while records wait, drops by one per tick after that, and never grows |
| `Dashboard.StepTally` | src/components/sections/Dashboard.tsx:58-70 | the (pending, processing, completed) counts after a tick are TallyStep of the counts before, whatever the log |
| `Dashboard.RunCounts` | src/components/sections/Dashboard.tsx:58-70 | after k ticks from a state where in-flight work accompanies waiting work, pending = max(0, w − k), processing = p until the waiting records are gone and then max(0, p − (k − w)), completed grows by min(k, w + p) |
| `Dashboard.StepTracks` | src/components/sections/Dashboard.tsx:56-73 | one tick changes only statuses, moves the minutes and tasks counters exactly with the completed records, and moves the score with them up to 100 |
| `Dashboard.RunTracks` | src/components/sections/Dashboard.tsx:56-73 | the same ties hold between a state and the state any number of ticks later |
| `Dashboard.SeedKeepsInFlightWhileWaiting` | src/components/sections/Dashboard.tsx:37-70 | every state reached from the mock data by any number of ticks has a record in flight whenever a record waits |
| `Dashboard.RunFixedPoint` | src/components/sections/Dashboard.tsx:58-70 | once every record is completed, any number of ticks leaves the whole state unchanged |
| `Dashboard.SeedRun` | src/components/sections/Dashboard.tsx:25-70 | from the mock state, five ticks leave work open; six complete every record with score 93, 227 minutes and 30 tasks; any later tick changes nothing |
| `Dashboard.Simulator.constructor` | src/components/sections/Dashboard.tsx:46-50 | the component mounts not simulating, with the mock log and counters 87/156/24 |
| `Dashboard.Simulator.ToggleSimulate` | src/components/sections/Dashboard.tsx:159 | the button flips the simulating flag and changes nothing else |
| `Dashboard.Simulator.Tick` | src/components/sections/Dashboard.tsx:55-73 | one interval firing while simulating replaces the log and counters by `Step` of the old ones (so every Step lemma applies) |
| `Dashboard.Simulator.Reset` | src/components/sections/Dashboard.tsx:79-85 | stops simulating and restores the mock log and counters whatever the old state, so a second reset gives the same state as one |
| `RoleDemos.FindDemo` | src/components/sections/RoleDemos.tsx:157 | None exactly when no demo has the id; otherwise the first demo in list order whose id matches |
| `RoleDemos.FindDemoUnique` | src/components/sections/RoleDemos.tsx:175 | with distinct ids, looking up demo k's id returns demo k |
| `RoleDemos.ShippedDemos` | src/components/sections/RoleDemos.tsx:32-69 | the tabs are sales, finance and hr, pairwise distinct, each with a four-step workflow |
| `RoleDemos.LookupShippedTab` | src/components/sections/RoleDemos.tsx:157 | each shipped tab's lookup returns its own demo, of four steps |
| `RoleDemos.TraceExact` | src/components/sections/RoleDemos.tsx:160-172 | after k ticks from step 0 the cursor is k and the run is still going for k below the stop tick (n for n ≥ 1 steps); from the stop tick on, the cursor holds the last step and the run has stopped |
| `RoleDemos.CursorInRange` | src/components/sections/RoleDemos.tsx:155-170 | with at least one step, the cursor after k ticks is min(k, n − 1), within [0, n − 1] |
| `RoleDemos.ShippedRunStopsOnFourthTick` | src/components/sections/RoleDemos.tsx:160-172 | each shipped workflow is still running after 3 ticks and stops on tick 4 holding step 3 |
| `RoleDemos.IdleClassification` | src/components/sections/RoleDemos.tsx:82-83 | when no run shows, no step is active and none is completed |
| `RoleDemos.RunningClassification` | src/components/sections/RoleDemos.tsx:82-83 | during a run at step c < n, the active steps are exactly {c}, the completed steps exactly those below c (c of them), and no step is both |
| `RoleDemos.BannerOnLastStep` | src/components/sections/RoleDemos.tsx:284 | with the cursor in range, the completion banner shows iff a run shows and the cursor is on the last step |
| `RoleDemos.BannerDuringRun` | src/components/sections/RoleDemos.tsx:284 | along a run the banner shows after tick k iff k ≥ n − 1 |
| `RoleDemos.Panel.constructor` | src/components/sections/RoleDemos.tsx:149-151 | the section mounts on the sales tab, not simulating, cursor 0 |
| `RoleDemos.Panel.Simulate` | src/components/sections/RoleDemos.tsx:153-158 | shows a run at step 0 on the same tab and returns the active demo's workflow length, or None when no demo has the tab's id |
| `RoleDemos.Panel.Tick` | src/components/sections/RoleDemos.tsx:161-171 | the cursor and the stop flag are those of `CursorTick` on the old cursor; the tab and the simulating flag are unchanged |
| `RoleDemos.Panel.Settle` | src/components/sections/RoleDemos.tsx:164-167 | the run is hidden and the cursor put back to 0; the tab is unchanged |
| `RoleDemos.Panel.ChangeTab` | src/components/sections/RoleDemos.tsx:226 | the new tab is selected, the run hidden and the cursor put back to 0 |
| `RoleDemos.Panel.RunWorkflow` | src/components/sections/RoleDemos.tsx:153-172 | a full run without tab changes takes exactly the stop tick's number of ticks (4 for the shipped tabs) and ends hidden at cursor 0; with no matching demo no tick fires and the run stays shown at step 0 |
| `Roadmap.ShippedSteps` | src/components/sections/Roadmap.tsx:23-108 | six cards with ids 1 to 6 in order, pairwise distinct; card 1 is the one open on first render |
| `Roadmap.ClickToggles` | src/components/sections/Roadmap.tsx:257-258 | with distinct ids, after a click on card k no card is open if card k was open, and otherwise card k is the only open card, whichever card was open before |
| `Roadmap.ClickTwice` | src/components/sections/Roadmap.tsx:258 | two clicks on one card restore the previous state iff no card or that card was open; from another open card they close everything |
| `Roadmap.ClickTwiceFromOtherCard` | src/components/sections/Roadmap.tsx:258 | card 2 open, two clicks on card 1 leave no card open |
| `Roadmap.AtMostOneActive` | src/components/sections/Roadmap.tsx:257 | with distinct ids, two open cards are the same card, and at most one card is open |
| `Roadmap.ExactlyOneActive` | src/components/sections/Roadmap.tsx:257 | with distinct ids, when the open id is card k's, card k is the only open card |
| `Roadmap.DetailsOnlyWhenActive` | src/components/sections/Roadmap.tsx:169-200 | with distinct ids, the cards showing their detail lines and duration are exactly the open cards, so at most one and none when no card is open; when card k is open it is that card, showing its own details and duration |
| `Roadmap.ClicksKeepOneOrNone` | src/components/sections/Roadmap.tsx:208-260 | starting from no card or one shipped card open, any clicks on shipped cards leave either no card or exactly one card open |

## Left out

- Timers. The 2000, 1500 and 1000 ms cadences of `setInterval` and `setTimeout` are not modelled, and neither is their order relative to user input. Ticks and the settle callback are explicit calls.
- Interval cancellation and overlapping runs. A tab change does not clear the workflow interval, so after a tab change the Simulate button can start a second interval beside the first. `Panel` takes ticks of any length as calls, but `RunWorkflow` covers only a run with no tab change during it. Two intervals firing in turn are not modelled.
- React semantics. The setters called inside the `setLogs` updater, a possible second run of an updater, and the shallow array copy that shares record objects are not modelled. A dashboard tick is one atomic state update.
- Timestamps. A record's timestamp is kept as the instant `now − i·60000` in milliseconds, with `now` passed to the constructor and to `Reset`. The wall clock and `toLocaleTimeString` formatting are not modelled.
- Dashboard.Simulator.Tick: requires the simulating flag, because the interval exists only while it is set. The effect clean-up that clears the interval when the flag drops is not modelled as a separate step.
- Presentation. Icons, colours, class strings, animation variants, the static "Active Users" figure and all other markup are not modelled.
- The navigation bar (scroll listener, mobile menu), the contact form (a submitted flag with a timeout, and browser field validation) and the animated metrics counters (a third-party counter and an intersection observer) are not modelled: they are browser I/O or library code.
- The hero, before/after, capabilities and footer sections, the page layout and the styling configuration are static content and are not modelled.
