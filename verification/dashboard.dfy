/** The live activity log of the dashboard section: a fixed list of eight mock
    task records and three counters, advanced one interval tick at a time. */
module Dashboard {
  import opened Wrappers

  datatype Status = Completed | Processing | Pending

  /** One row of the activity log. `timestamp` is the instant the row stands
      for, in milliseconds since the epoch; its locale formatting is not modelled. */
  datatype TaskRecord = TaskRecord(
    id: string,
    task: string,
    department: string,
    status: Status,
    timeSaved: int,
    timestamp: int)

  /** The constant part of a mock record, before an id, status and timestamp are added. */
  datatype TaskTemplate = TaskTemplate(task: string, department: string, timeSaved: int)

  const Templates: seq<TaskTemplate> := [
    TaskTemplate("Invoice reconciliation", "Finance", 12),
    TaskTemplate("Lead follow-up email", "Sales", 8),
    TaskTemplate("Resume screening", "HR", 15),
    TaskTemplate("Report generation", "Operations", 20),
    TaskTemplate("Meeting notes summary", "All Teams", 5),
    TaskTemplate("Data validation", "Finance", 10),
    TaskTemplate("Contract review prep", "Legal", 18),
    TaskTemplate("Customer inquiry routing", "Support", 3)
  ]

  const SeedImpactScore := 87
  const SeedTimeSaved := 156
  const SeedTasksCompleted := 24
  const MaxImpactScore := 100
  const MinuteMs := 60000

  /** The decimal spelling of a natural number, as a template literal prints it. */
  function Decimal(n: nat): string
    decreases n
  {
    if n < 10 then [('0' as int + n) as char]
    else Decimal(n / 10) + [('0' as int + n % 10) as char]
  }

  /** Status of the i-th mock record: two done, two in flight, the rest waiting. */
  function SeedStatus(i: int): Status {
    if i < 2 then Completed else if i < 4 then Processing else Pending
  }

  /** The mock log built from the templates at clock reading `now`. */
  function MockLogs(now: int): seq<TaskRecord> {
    seq(|Templates|, i requires 0 <= i < |Templates| =>
      TaskRecord("task-" + Decimal(i), Templates[i].task, Templates[i].department,
                 SeedStatus(i), Templates[i].timeSaved, now - i * MinuteMs))
  }

  /** Everything a tick reads and writes: the log and the three counters. */
  datatype Snapshot = Snapshot(logs: seq<TaskRecord>, impactScore: int, timeSaved: int, tasksCompleted: int)

  function Seed(now: int): Snapshot {
    Snapshot(MockLogs(now), SeedImpactScore, SeedTimeSaved, SeedTasksCompleted)
  }

  /** Index of the first record with status `st`, or -1 when there is none. */
  function FindIndex(logs: seq<TaskRecord>, st: Status): (r: int)
    ensures -1 <= r < |logs|
    ensures r == -1 <==> forall i :: 0 <= i < |logs| ==> logs[i].status != st
    ensures r != -1 ==> logs[r].status == st && forall i :: 0 <= i < r ==> logs[i].status != st
  {
    if |logs| == 0 then -1
    else if logs[0].status == st then 0
    else
      var k := FindIndex(logs[1..], st);
      if k == -1 then -1 else k + 1
  }

  /** One interval tick, taken as a single atomic update: complete the first
      record in flight (crediting the counters), then start the first waiting
      record, both located in the list as it was before the tick. */
  function Step(d: Snapshot): Snapshot {
    var p := FindIndex(d.logs, Processing);
    var q := FindIndex(d.logs, Pending);
    var done :=
      if p == -1 then d
      else Snapshot(d.logs[p := d.logs[p].(status := Completed)],
                    Min(MaxImpactScore, d.impactScore + 1),
                    d.timeSaved + d.logs[p].timeSaved,
                    d.tasksCompleted + 1);
    if q == -1 then done
    else done.(logs := done.logs[q := done.logs[q].(status := Processing)])
  }

  /** `k` ticks in a row. */
  function Run(d: Snapshot, k: nat): Snapshot
    decreases k
  {
    if k == 0 then d else Run(Step(d), k - 1)
  }

  /** The status a record may move to next. */
  function Advance(s: Status): Status {
    match s
    case Pending => Processing
    case Processing => Completed
    case Completed => Completed
  }

  function Count(logs: seq<TaskRecord>, st: Status): nat {
    if |logs| == 0 then 0
    else (if logs[0].status == st then 1 else 0) + Count(logs[1..], st)
  }

  /** Minutes saved by the records of the log that are completed. */
  function CompletedMinutes(logs: seq<TaskRecord>): int {
    if |logs| == 0 then 0
    else (if logs[0].status == Completed then logs[0].timeSaved else 0) + CompletedMinutes(logs[1..])
  }

  /** The status column of the log. */
  function Statuses(logs: seq<TaskRecord>): (ss: seq<Status>)
    ensures |ss| == |logs| && forall i :: 0 <= i < |logs| ==> ss[i] == logs[i].status
  {
    seq(|logs|, i requires 0 <= i < |logs| => logs[i].status)
  }

  predicate AllCompleted(logs: seq<TaskRecord>) {
    forall i :: 0 <= i < |logs| ==> logs[i].status == Completed
  }

  /** Termination measure of the simulation: each waiting record still owes two
      status changes, each record in flight one. */
  function Measure(d: Snapshot): nat {
    2 * Count(d.logs, Pending) + Count(d.logs, Processing)
  }

  /** While work is waiting, some is in flight; every state reached from the
      seed satisfies it (SeedKeepsInFlightWhileWaiting). */
  predicate InFlightWhileWaiting(d: Snapshot) {
    Count(d.logs, Pending) > 0 ==> Count(d.logs, Processing) > 0
  }

  // ---------------------------------------------------------------------------
  // Counting lemmas

  lemma {:induction false} CountUpdate(s: seq<TaskRecord>, i: int, x: TaskRecord, st: Status)
    requires 0 <= i < |s|
    ensures Count(s[i := x], st) + (if s[i].status == st then 1 else 0)
         == Count(s, st) + (if x.status == st then 1 else 0)
  {
    if i > 0 {
      assert s[i := x][1..] == s[1..][i - 1 := x];
      CountUpdate(s[1..], i - 1, x, st);
    } else {
      assert s[i := x][1..] == s[1..];
    }
  }

  lemma {:induction false} CompletedMinutesUpdate(s: seq<TaskRecord>, i: int, x: TaskRecord)
    requires 0 <= i < |s|
    ensures CompletedMinutes(s[i := x]) + (if s[i].status == Completed then s[i].timeSaved else 0)
         == CompletedMinutes(s) + (if x.status == Completed then x.timeSaved else 0)
  {
    if i > 0 {
      assert s[i := x][1..] == s[1..][i - 1 := x];
      CompletedMinutesUpdate(s[1..], i - 1, x);
    } else {
      assert s[i := x][1..] == s[1..];
    }
  }

  /** With no record waiting and none in flight, every record is completed. */
  lemma {:induction false} NoneOpenAllCompleted(logs: seq<TaskRecord>)
    ensures Count(logs, Pending) == 0 && Count(logs, Processing) == 0 <==> AllCompleted(logs)
  {
    if |logs| > 0 {
      NoneOpenAllCompleted(logs[1..]);
      if AllCompleted(logs) {
        assert AllCompleted(logs[1..]) by {
          forall i | 0 <= i < |logs[1..]| ensures logs[1..][i].status == Completed {
            assert logs[1..][i] == logs[i + 1];
          }
        }
      }
      if AllCompleted(logs[1..]) && logs[0].status == Completed {
        forall i | 0 <= i < |logs| ensures logs[i].status == Completed {
          if i > 0 { assert logs[i] == logs[1..][i - 1]; }
        }
      }
    }
  }

  /** Counting a status in the log is counting it in the status column. */
  lemma {:induction false} CountIsMultiplicity(logs: seq<TaskRecord>, st: Status)
    ensures Count(logs, st) == multiset(Statuses(logs))[st]
  {
    if |logs| > 0 {
      assert Statuses(logs) == [logs[0].status] + Statuses(logs[1..]);
      CountIsMultiplicity(logs[1..], st);
    }
  }

  /** The first index is determined by the status column. */
  lemma FindIndexAt(logs: seq<TaskRecord>, st: Status, k: int)
    requires 0 <= k < |logs| && Statuses(logs)[k] == st
    requires forall i :: 0 <= i < k ==> Statuses(logs)[i] != st
    ensures FindIndex(logs, st) == k
  {
  }

  // ---------------------------------------------------------------------------
  // The seed

  /** The mock log has eight records: 0-1 completed, 2-3 in flight, 4-7 waiting;
      the counters start at 87, 156 and 24. */
  lemma SeedShape(now: int)
    ensures var d := Seed(now);
      Statuses(d.logs) == [Completed, Completed, Processing, Processing, Pending, Pending, Pending, Pending]
      && Count(d.logs, Completed) == 2 && Count(d.logs, Processing) == 2 && Count(d.logs, Pending) == 4
      && d.impactScore == 87 && d.timeSaved == 156 && d.tasksCompleted == 24
  {
    var l := MockLogs(now);
    assert |l| == 8;
    assert forall i :: 0 <= i < 8 ==> Statuses(l)[i] == SeedStatus(i);
    assert Statuses(l) == [Completed, Completed, Processing, Processing, Pending, Pending, Pending, Pending];
    CountIsMultiplicity(l, Completed);
    CountIsMultiplicity(l, Processing);
    CountIsMultiplicity(l, Pending);
  }

  /** The seed has two records in flight at once, so "at most one in flight" is not an invariant. */
  lemma SeedTwoInFlight(now: int)
    ensures Seed(now).logs[2].status == Processing && Seed(now).logs[3].status == Processing
  {
  }

  // ---------------------------------------------------------------------------
  // One tick

  /** A tick touches only the status of the first record in flight and of the
      first waiting record; the length and every other field are kept. */
  lemma StepLocality(d: Snapshot)
    ensures var r := Step(d);
      var p := FindIndex(d.logs, Processing);
      var q := FindIndex(d.logs, Pending);
      |r.logs| == |d.logs|
      && (forall i :: 0 <= i < |d.logs| ==>
            r.logs[i] == d.logs[i].(status := r.logs[i].status))
      && (forall i :: 0 <= i < |d.logs| && i != p && i != q ==> r.logs[i] == d.logs[i])
      && (p != -1 ==> r.logs[p].status == Completed)
      && (q != -1 ==> r.logs[q].status == Processing)
  {
  }

  /** Statuses only move forward, pending to processing to completed, one step
      at a time; a completed record never changes. */
  lemma StepMonotone(d: Snapshot)
    ensures var r := Step(d);
      |r.logs| == |d.logs|
      && forall i :: 0 <= i < |d.logs| ==>
           (r.logs[i].status == d.logs[i].status || r.logs[i].status == Advance(d.logs[i].status))
           && (d.logs[i].status == Completed ==> r.logs[i] == d.logs[i])
  {
  }

  /** The counters move only when a record completes. With nothing in flight
      a tick leaves them alone. Otherwise the task counter gains one, just as
      the log gains one completed record; the minutes counter gains what the
      completed records of the log gain, namely the minutes of the first
      record that was in flight; and the score gains one until it is 100. */
  lemma StepCounters(d: Snapshot)
    ensures var r := Step(d);
      Count(d.logs, Processing) == 0 ==>
        r.impactScore == d.impactScore && r.timeSaved == d.timeSaved
        && r.tasksCompleted == d.tasksCompleted
    ensures var r := Step(d);
      Count(d.logs, Processing) > 0 ==>
        r.tasksCompleted - d.tasksCompleted == 1 == Count(r.logs, Completed) - Count(d.logs, Completed)
        && r.timeSaved - d.timeSaved == CompletedMinutes(r.logs) - CompletedMinutes(d.logs)
        && (exists i :: 0 <= i < |d.logs| && d.logs[i].status == Processing
              && (forall j :: 0 <= j < i ==> d.logs[j].status != Processing)
              && r.logs[i].status == Completed && r.timeSaved - d.timeSaved == d.logs[i].timeSaved)
        && (d.impactScore < MaxImpactScore ==> r.impactScore == d.impactScore + 1)
        && (d.impactScore >= MaxImpactScore ==> r.impactScore == MaxImpactScore)
  {
    StepCounts(d);
    CountPositiveFound(d.logs, Processing);
    var p := FindIndex(d.logs, Processing);
    if p != -1 {
      StepLocality(d);
      assert Step(d).logs[p].status == Completed;
    }
  }

  /** From at most 100 the impact score never decreases and never passes 100;
      from above 100 it never rises. */
  lemma ScoreCap(d: Snapshot)
    ensures d.impactScore <= MaxImpactScore ==>
              d.impactScore <= Step(d).impactScore <= MaxImpactScore
    ensures Step(d).impactScore <= Max(d.impactScore, MaxImpactScore)
  {
  }

  /** How each status count moves on a tick. */
  lemma {:induction false} StepCounts(d: Snapshot)
    ensures var r := Step(d);
      var p := FindIndex(d.logs, Processing);
      var q := FindIndex(d.logs, Pending);
      Count(r.logs, Completed) == Count(d.logs, Completed) + (if p != -1 then 1 else 0)
      && Count(r.logs, Processing) + (if p != -1 then 1 else 0)
         == Count(d.logs, Processing) + (if q != -1 then 1 else 0)
      && Count(r.logs, Pending) + (if q != -1 then 1 else 0) == Count(d.logs, Pending)
      && CompletedMinutes(r.logs)
         == CompletedMinutes(d.logs) + (if p != -1 then d.logs[p].timeSaved else 0)
  {
    var p := FindIndex(d.logs, Processing);
    var q := FindIndex(d.logs, Pending);
    var l1 := if p == -1 then d.logs else d.logs[p := d.logs[p].(status := Completed)];
    if p != -1 {
      CountUpdate(d.logs, p, d.logs[p].(status := Completed), Completed);
      CountUpdate(d.logs, p, d.logs[p].(status := Completed), Processing);
      CountUpdate(d.logs, p, d.logs[p].(status := Completed), Pending);
      CompletedMinutesUpdate(d.logs, p, d.logs[p].(status := Completed));
    }
    if q != -1 {
      assert l1[q] == d.logs[q];
      CountUpdate(l1, q, l1[q].(status := Processing), Completed);
      CountUpdate(l1, q, l1[q].(status := Processing), Processing);
      CountUpdate(l1, q, l1[q].(status := Processing), Pending);
      CompletedMinutesUpdate(l1, q, l1[q].(status := Processing));
    }
  }

  /** The counters stay tied to the log: minutes saved minus the minutes of the
      completed records, and tasks completed minus the number of completed
      records, are the same before and after a tick. */
  lemma CountersTrackLog(d: Snapshot)
    ensures var r := Step(d);
      r.timeSaved - CompletedMinutes(r.logs) == d.timeSaved - CompletedMinutes(d.logs)
      && r.tasksCompleted - Count(r.logs, Completed) == d.tasksCompleted - Count(d.logs, Completed)
  {
    StepCounts(d);
  }

  /** Every tick that changes anything lowers the measure, and a tick that
      lowers nothing is a no-op exactly when every record is completed. */
  lemma StepTerminates(d: Snapshot)
    ensures Step(d) != d ==> Measure(Step(d)) < Measure(d)
    ensures Step(d) == d <==> AllCompleted(d.logs)
  {
    StepCounts(d);
    NoneOpenAllCompleted(d.logs);
    var p := FindIndex(d.logs, Processing);
    var q := FindIndex(d.logs, Pending);
    if p != -1 {
      assert Step(d).logs[p].status != d.logs[p].status;
    } else if q != -1 {
      assert Step(d).logs[q].status != d.logs[q].status;
    }
  }

  /** While some record waits, some is in flight; under that invariant the
      number in flight never grows: it holds while work waits and then drops
      by one per tick. */
  lemma ProcessingNeverIncreases(d: Snapshot)
    requires InFlightWhileWaiting(d)
    ensures InFlightWhileWaiting(Step(d))
    ensures Count(d.logs, Pending) > 0 ==> Count(Step(d).logs, Processing) == Count(d.logs, Processing)
    ensures Count(d.logs, Pending) == 0 && Count(d.logs, Processing) > 0 ==>
              Count(Step(d).logs, Processing) == Count(d.logs, Processing) - 1
    ensures Count(Step(d).logs, Processing) <= Count(d.logs, Processing)
  {
    StepCounts(d);
    var p := FindIndex(d.logs, Processing);
    var q := FindIndex(d.logs, Pending);
    if Count(d.logs, Pending) > 0 {
      CountPositiveFound(d.logs, Pending);
      CountPositiveFound(d.logs, Processing);
    } else {
      CountZeroNotFound(d.logs, Pending);
      if Count(d.logs, Processing) > 0 {
        CountPositiveFound(d.logs, Processing);
      }
    }
  }

  lemma {:induction false} CountPositiveFound(logs: seq<TaskRecord>, st: Status)
    ensures Count(logs, st) > 0 <==> FindIndex(logs, st) != -1
  {
    if |logs| > 0 {
      CountPositiveFound(logs[1..], st);
    }
  }

  lemma CountZeroNotFound(logs: seq<TaskRecord>, st: Status)
    ensures Count(logs, st) == 0 <==> FindIndex(logs, st) == -1
  {
    CountPositiveFound(logs, st);
  }

  // ---------------------------------------------------------------------------
  // Runs

  /** Every state reached from the seed has work in flight while work waits. */
  lemma SeedKeepsInFlightWhileWaiting(now: int, k: nat)
    ensures InFlightWhileWaiting(Run(Seed(now), k))
  {
    SeedShape(now);
    RunCounts(Seed(now), k);
  }

  /** Once every record is completed, ticking changes nothing at all. */
  lemma {:induction false} RunFixedPoint(d: Snapshot, k: nat)
    requires AllCompleted(d.logs)
    ensures Run(d, k) == d
  {
    if k > 0 {
      StepTerminates(d);
      RunFixedPoint(d, k - 1);
    }
  }

  lemma {:induction false} RunSplit(d: Snapshot, j: nat, k: nat)
    ensures Run(d, j + k) == Run(Run(d, j), k)
    decreases j
  {
    if j > 0 {
      calc {
        Run(d, j + k);
        Run(Step(d), (j - 1) + k);
        { RunSplit(Step(d), j - 1, k); }
        Run(Run(Step(d), j - 1), k);
      }
    }
  }

  /** The log with every status blanked out: what a tick never changes. */
  function Erase(logs: seq<TaskRecord>): seq<TaskRecord> {
    seq(|logs|, i requires 0 <= i < |logs| => logs[i].(status := Pending))
  }

  /** Minutes of all records, whatever their status. */
  function TotalMinutes(logs: seq<TaskRecord>): int {
    if |logs| == 0 then 0 else logs[0].timeSaved + TotalMinutes(logs[1..])
  }

  lemma {:induction false} TotalMinutesErase(a: seq<TaskRecord>, b: seq<TaskRecord>)
    requires Erase(a) == Erase(b)
    ensures TotalMinutes(a) == TotalMinutes(b)
  {
    assert |a| == |Erase(a)| == |b|;
    if |a| > 0 {
      assert a[0].timeSaved == Erase(a)[0].timeSaved == b[0].timeSaved;
      assert Erase(a[1..]) == Erase(b[1..]) by {
        forall i | 0 <= i < |a| - 1 ensures Erase(a[1..])[i] == Erase(b[1..])[i] {
          assert Erase(a[1..])[i] == Erase(a)[i + 1];
          assert Erase(b[1..])[i] == Erase(b)[i + 1];
        }
      }
      TotalMinutesErase(a[1..], b[1..]);
    }
  }

  lemma {:induction false} AllCompletedMinutes(logs: seq<TaskRecord>)
    requires AllCompleted(logs)
    ensures CompletedMinutes(logs) == TotalMinutes(logs)
  {
    if |logs| > 0 {
      assert logs[0].status == Completed;
      assert AllCompleted(logs[1..]) by {
        forall i | 0 <= i < |logs| - 1 ensures logs[1..][i].status == Completed {
          assert logs[1..][i] == logs[i + 1];
        }
      }
      AllCompletedMinutes(logs[1..]);
    }
  }

  /** The number of records waiting, in flight and completed. */
  datatype Tally = Tally(waiting: nat, inFlight: nat, done: nat)

  function TallyOf(logs: seq<TaskRecord>): Tally {
    Tally(Count(logs, Pending), Count(logs, Processing), Count(logs, Completed))
  }

  /** How one tick moves the tally, whatever the log looks like. */
  function TallyStep(t: Tally): Tally {
    Tally(if t.waiting > 0 then t.waiting - 1 else 0,
          if t.waiting > 0 && t.inFlight == 0 then 1
          else if t.waiting == 0 && t.inFlight > 0 then t.inFlight - 1
          else t.inFlight,
          if t.inFlight > 0 then t.done + 1 else t.done)
  }

  function TallyRun(t: Tally, k: nat): Tally
    decreases k
  {
    if k == 0 then t else TallyRun(TallyStep(t), k - 1)
  }

  /** A tick acts on the tally of the log as TallyStep says. */
  lemma StepTally(d: Snapshot)
    ensures TallyOf(Step(d).logs) == TallyStep(TallyOf(d.logs))
  {
    StepCounts(d);
    CountPositiveFound(d.logs, Pending);
    CountPositiveFound(d.logs, Processing);
  }

  lemma {:induction false} RunTally(d: Snapshot, k: nat)
    ensures TallyOf(Run(d, k).logs) == TallyRun(TallyOf(d.logs), k)
    decreases k
  {
    if k > 0 {
      StepTally(d);
      RunTally(Step(d), k - 1);
    }
  }

  /** Closed form of the tally after k ticks, when work in flight accompanies
      waiting work: waiting records drain one per tick, the number in flight
      holds until they are gone and then drains one per tick, and one record
      completes per tick until none is open. */
  lemma {:induction false} TallyRunClosedForm(t: Tally, k: nat)
    requires t.waiting > 0 ==> t.inFlight > 0
    ensures TallyRun(t, k)
         == Tally(Max(0, t.waiting - k),
                  if k <= t.waiting then t.inFlight else Max(0, t.inFlight - (k - t.waiting)),
                  t.done + Min(k, t.waiting + t.inFlight))
    decreases k
  {
    if k > 0 {
      TallyRunClosedForm(TallyStep(t), k - 1);
    }
  }

  /** Over any number of ticks from a state where work in flight accompanies
      waiting work, the status counts follow the closed form above. */
  lemma RunCounts(d: Snapshot, k: nat)
    requires InFlightWhileWaiting(d)
    ensures var t := TallyOf(d.logs);
      TallyOf(Run(d, k).logs)
      == Tally(Max(0, t.waiting - k),
               if k <= t.waiting then t.inFlight else Max(0, t.inFlight - (k - t.waiting)),
               t.done + Min(k, t.waiting + t.inFlight))
  {
    RunTally(d, k);
    TallyRunClosedForm(TallyOf(d.logs), k);
  }

  /** What one tick keeps: everything but statuses, and the ties between the
      counters and the log. */
  lemma StepTracks(d: Snapshot)
    ensures var r := Step(d);
      Erase(r.logs) == Erase(d.logs)
      && r.timeSaved - CompletedMinutes(r.logs) == d.timeSaved - CompletedMinutes(d.logs)
      && r.tasksCompleted - Count(r.logs, Completed) == d.tasksCompleted - Count(d.logs, Completed)
      && (d.impactScore <= MaxImpactScore ==>
            r.impactScore == Min(MaxImpactScore,
                                 d.impactScore + Count(r.logs, Completed) - Count(d.logs, Completed)))
  {
    var s := Step(d);
    StepLocality(d);
    StepCounts(d);
    assert Erase(s.logs) == Erase(d.logs) by {
      forall i | 0 <= i < |d.logs| ensures Erase(s.logs)[i] == Erase(d.logs)[i] {
      }
    }
  }

  /** The ties that ticks keep between a state `d` and a later state `r`:
      only statuses differ, the minutes and tasks counters moved exactly with
      the records completed in between, no completion was undone, and the
      score rose with the completions up to 100. */
  predicate Tracks(d: Snapshot, r: Snapshot) {
    Erase(r.logs) == Erase(d.logs)
    && r.timeSaved - CompletedMinutes(r.logs) == d.timeSaved - CompletedMinutes(d.logs)
    && r.tasksCompleted - Count(r.logs, Completed) == d.tasksCompleted - Count(d.logs, Completed)
    && Count(d.logs, Completed) <= Count(r.logs, Completed)
    && (d.impactScore <= MaxImpactScore ==>
          r.impactScore == Min(MaxImpactScore,
                               d.impactScore + Count(r.logs, Completed) - Count(d.logs, Completed)))
  }

  lemma TracksTransitive(a: Snapshot, b: Snapshot, c: Snapshot)
    requires Tracks(a, b) && Tracks(b, c)
    ensures Tracks(a, c)
  {
  }

  /** Over any number of ticks the counters stay tied to the log. */
  lemma {:induction false} RunTracks(d: Snapshot, k: nat)
    ensures Tracks(d, Run(d, k))
    decreases k
  {
    if k > 0 {
      var s := Step(d);
      StepTracks(d);
      StepCounts(d);
      assert Tracks(d, s);
      RunTracks(s, k - 1);
      TracksTransitive(d, s, Run(s, k - 1));
    }
  }

  /** Minutes of the seed log: 20 credited to its two completed records, 91 in all. */
  lemma SeedMinutes(now: int)
    ensures CompletedMinutes(Seed(now).logs) == 20
    ensures TotalMinutes(Seed(now).logs) == 91
  {
    var l := MockLogs(now);
    assert |l| == 8;
    assert l[7..][1..] == [];
    assert CompletedMinutes(l[7..]) == 0 && TotalMinutes(l[7..]) == 3;
    assert l[6..][1..] == l[7..];
    assert CompletedMinutes(l[6..]) == 0 && TotalMinutes(l[6..]) == 21;
    assert l[5..][1..] == l[6..];
    assert CompletedMinutes(l[5..]) == 0 && TotalMinutes(l[5..]) == 31;
    assert l[4..][1..] == l[5..];
    assert CompletedMinutes(l[4..]) == 0 && TotalMinutes(l[4..]) == 36;
    assert l[3..][1..] == l[4..];
    assert CompletedMinutes(l[3..]) == 0 && TotalMinutes(l[3..]) == 56;
    assert l[2..][1..] == l[3..];
    assert CompletedMinutes(l[2..]) == 0 && TotalMinutes(l[2..]) == 71;
    assert l[1..][1..] == l[2..];
    assert CompletedMinutes(l[1..]) == 8 && TotalMinutes(l[1..]) == 79;
    assert l[0..] == l;
  }

  /** The facts about the seed that its run depends on. */
  predicate SeedLike(d: Snapshot) {
    TallyOf(d.logs) == Tally(4, 2, 2)
    && CompletedMinutes(d.logs) == 20 && TotalMinutes(d.logs) == 91
    && d.impactScore == 87 && d.timeSaved == 156 && d.tasksCompleted == 24
  }

  lemma SeedLikeOpenAfterFive(d: Snapshot)
    requires SeedLike(d)
    ensures !AllCompleted(Run(d, 5).logs)
  {
    RunCounts(d, 5);
    NoneOpenAllCompleted(Run(d, 5).logs);
  }

  lemma SeedLikeDoneAfterSix(d: Snapshot)
    requires SeedLike(d)
    ensures AllCompleted(Run(d, 6).logs) && Count(Run(d, 6).logs, Completed) == 8
  {
    RunCounts(d, 6);
    NoneOpenAllCompleted(Run(d, 6).logs);
  }

  lemma SeedLikeCountersAfterSix(d: Snapshot)
    requires SeedLike(d)
    ensures var r := Run(d, 6);
      r.impactScore == 93 && r.timeSaved == 227 && r.tasksCompleted == 30
  {
    var r := Run(d, 6);
    SeedLikeDoneAfterSix(d);
    RunTracks(d, 6);
    AllCompletedMinutes(r.logs);
    TotalMinutesErase(r.logs, d.logs);
  }

  /** Once a run has completed every record, further ticks change nothing. */
  lemma {:induction false} RunStaysDone(d: Snapshot, j: nat, k: nat)
    requires AllCompleted(Run(d, j).logs) && k >= j
    ensures Run(d, k) == Run(d, j)
  {
    RunSplit(d, j, k - j);
    RunFixedPoint(Run(d, j), k - j);
  }

  /** From the seed, five ticks leave work open, and the sixth completes every
      record with score 93, 227 minutes saved and 30 tasks completed; later
      ticks change nothing. */
  lemma SeedRun(now: int, k: nat)
    requires k >= 6
    ensures !AllCompleted(Run(Seed(now), 5).logs)
    ensures var r := Run(Seed(now), 6);
      AllCompleted(r.logs) && r.impactScore == 93 && r.timeSaved == 227 && r.tasksCompleted == 30
    ensures Run(Seed(now), k) == Run(Seed(now), 6)
  {
    var d := Seed(now);
    SeedShape(now);
    SeedMinutes(now);
    assert SeedLike(d);
    SeedLikeOpenAfterFive(d);
    SeedLikeDoneAfterSix(d);
    SeedLikeCountersAfterSix(d);
    RunStaysDone(d, 6, k);
  }

  // ---------------------------------------------------------------------------
  // The component state

  /** The dashboard section's state: whether the interval runs, the log and the counters. */
  class Simulator {
    var isSimulating: bool
    var logs: seq<TaskRecord>
    var impactScore: int
    var timeSaved: int
    var tasksCompleted: int

    function State(): Snapshot
      reads this
    {
      Snapshot(logs, impactScore, timeSaved, tasksCompleted)
    }

    /** The state on mount, with the clock reading `now`. */
    constructor (now: int)
      ensures !isSimulating && State() == Seed(now)
    {
      isSimulating := false;
      logs := MockLogs(now);
      impactScore := SeedImpactScore;
      timeSaved := SeedTimeSaved;
      tasksCompleted := SeedTasksCompleted;
    }

    /** The Simulate/Pause button. */
    method ToggleSimulate()
      modifies this
      ensures isSimulating == !old(isSimulating) && State() == old(State())
    {
      isSimulating := !isSimulating;
    }

    /** The interval body; the interval exists only while simulating. */
    method Tick()
      requires isSimulating
      modifies this
      ensures isSimulating && State() == Step(old(State()))
    {
      var updated := logs;
      var processingIndex := FindIndex(updated, Processing);
      var pendingIndex := FindIndex(updated, Pending);
      if processingIndex != -1 {
        updated := updated[processingIndex := updated[processingIndex].(status := Completed)];
        timeSaved := timeSaved + updated[processingIndex].timeSaved;
        tasksCompleted := tasksCompleted + 1;
        impactScore := Min(MaxImpactScore, impactScore + 1);
      }
      if pendingIndex != -1 {
        updated := updated[pendingIndex := updated[pendingIndex].(status := Processing)];
      }
      logs := updated;
    }

    /** The Reset button: stop and rebuild the seed with the clock reading `now`.
        The new state does not depend on the old one, so two resets equal one. */
    method Reset(now: int)
      modifies this
      ensures !isSimulating && State() == Seed(now)
    {
      isSimulating := false;
      logs := MockLogs(now);
      impactScore := SeedImpactScore;
      timeSaved := SeedTimeSaved;
      tasksCompleted := SeedTasksCompleted;
    }
  }
}
