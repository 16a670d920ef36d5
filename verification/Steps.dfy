/** shared/ci/steps.go: folding a forge's job list into the steps ladder. */
module Steps {
  import opened Prelude
  import opened Clock
  import opened JobNames

  /** A job status. Any value other than the two the program names is "not running yet". */
  datatype Status = InProgress | Completed | Waiting

  datatype Conclusion = Success | Failure | Cancelled | Skipped | TimedOut | StartupFailure | Unknown

  /** A job as the forge reports it. */
  datatype ForgeJob = ForgeJob(name: string, status: Status, conclusion: Conclusion, startedAt: Time, completedAt: Time)

  /** A job under its group's name, which is all the ladder reads of the job's own. */
  datatype Job = Job(group: string, status: Status, conclusion: Conclusion, startedAt: Time, completedAt: Time)

  function Grouped(job: ForgeJob): Job {
    Job(BaseJobName(job.name), job.status, job.conclusion, job.startedAt, job.completedAt)
  }

  function GroupedAll(jobs: seq<ForgeJob>): (r: seq<Job>)
    ensures |r| == |jobs| && forall i :: 0 <= i < |jobs| ==> r[i] == Grouped(jobs[i])
  {
    seq(|jobs|, i requires 0 <= i < |jobs| => Grouped(jobs[i]))
  }

  datatype StepInfo = StepInfo(
    totalSteps: int,
    currentStep: int,
    currentStepName: string,
    stepRows: seq<int>,
    stepLabels: seq<string>,
    stepColors: seq<string>,
    currentStepStartedAt: Time,
    allCompleted: bool,
    anyFailed: bool,
    progress: real)

  const QUEUED_STEP_NAME := "Queued"

  predicate JobFailed(c: Conclusion) {
    c in {Failure, Cancelled, TimedOut, StartupFailure}
  }

  // ---------- Groups ----------

  /** The group names in the order the job list first shows them. */
  function Labels(jobs: seq<Job>): seq<string> {
    if jobs == [] then [] else
      var before := Labels(jobs[..|jobs| - 1]);
      var name := jobs[|jobs| - 1].group;
      if name in before then before else before + [name]
  }

  /** The jobs of one group, in list order. */
  function Shards(jobs: seq<Job>, name: string): seq<Job> {
    if jobs == [] then [] else
      var before := Shards(jobs[..|jobs| - 1], name);
      var job := jobs[|jobs| - 1];
      if job.group == name then before + [job] else before
  }

  function Finished(jobs: seq<Job>): nat {
    if jobs == [] then 0 else
      Finished(jobs[..|jobs| - 1]) + if jobs[|jobs| - 1].status.Completed? then 1 else 0
  }

  function FirstStart(jobs: seq<Job>): Time {
    if jobs == [] then 0 else Earliest(FirstStart(jobs[..|jobs| - 1]), jobs[|jobs| - 1].startedAt)
  }

  predicate AnyRunning(jobs: seq<Job>) { exists j :: j in jobs && j.status.InProgress? }

  predicate AnyJobFailed(jobs: seq<Job>) { exists j :: j in jobs && j.status.Completed? && JobFailed(j.conclusion) }

  predicate AllCompleted(jobs: seq<Job>) { forall j :: j in jobs ==> j.status.Completed? }

  /** A group whose name is blank cannot be the highlighted one: the program reads a
      blank current name as "none found yet". */
  function FirstRunning(jobs: seq<Job>): Option<nat> {
    FirstIndex(Labels(jobs), (n: string) => n != "" && AnyRunning(Shards(jobs, n)))
  }

  function FirstUnfinished(jobs: seq<Job>): Option<nat> {
    FirstIndex(Labels(jobs), (n: string) => Finished(Shards(jobs, n)) < |Shards(jobs, n)|)
  }

  /** The ladder of a job list, group by group. */
  function Ladder(jobs: seq<Job>, color: string -> string): StepInfo {
    var labels := Labels(jobs);
    var all := AllCompleted(jobs);
    var running := FirstRunning(jobs);
    var unfinished := FirstUnfinished(jobs);
    var current :=
      if running.Some? then running.value + 1
      else if !all && unfinished.Some? then unfinished.value + 1
      else 0;
    StepInfo(
      |labels|,
      current,
      if running.Some? then labels[running.value] else if !all then QUEUED_STEP_NAME else "",
      seq(|labels|, i requires 0 <= i < |labels| => |Shards(jobs, labels[i])|),
      labels,
      seq(|labels|, i requires 0 <= i < |labels| => color(labels[i])),
      if current > 0 then FirstStart(Shards(jobs, labels[current - 1])) else 0,
      all,
      AnyJobFailed(jobs),
      if jobs == [] then 0.0 else Finished(jobs) as real / |jobs| as real)
  }

  // ---------- Facts about groups ----------

  lemma {:induction false} LabelsAreTheGroups(jobs: seq<Job>)
    ensures Distinct(Labels(jobs))
    ensures forall j :: j in jobs ==> j.group in Labels(jobs)
    ensures forall n :: n in Labels(jobs) ==> Shards(jobs, n) != []
  {
    if jobs == [] {
    } else {
      LabelsAreTheGroups(jobs[..|jobs| - 1]);
    }
  }

  lemma {:induction false} ShardsOfAGroup(jobs: seq<Job>, name: string)
    ensures forall j :: j in Shards(jobs, name) <==> j in jobs && j.group == name
    ensures |Shards(jobs, name)| <= |jobs|
  {
    if jobs == [] {
    } else {
      ShardsOfAGroup(jobs[..|jobs| - 1], name);
      assert jobs == jobs[..|jobs| - 1] + [jobs[|jobs| - 1]];
    }
  }

  lemma {:induction false} FinishedBounds(jobs: seq<Job>)
    ensures Finished(jobs) <= |jobs|
    ensures Finished(jobs) == |jobs| <==> AllCompleted(jobs)
  {
    if jobs == [] {
    } else {
      FinishedBounds(jobs[..|jobs| - 1]);
      assert jobs == jobs[..|jobs| - 1] + [jobs[|jobs| - 1]];
    }
  }

  /** Where a group is first seen. */
  function FirstSeen(jobs: seq<Job>, name: string): Option<nat> {
    FirstIndex(jobs, (j: Job) => j.group == name)
  }

  lemma FirstSeenInPrefix(jobs: seq<Job>, n: nat, name: string)
    requires n <= |jobs|
    requires FirstSeen(jobs[..n], name).Some?
    ensures FirstSeen(jobs, name) == FirstSeen(jobs[..n], name)
  {
    hide FirstIndexFrom;
    var i := FirstSeen(jobs[..n], name).value;
    assert jobs[i].group == name;
    assert forall k :: 0 <= k < i ==> jobs[..n][k] == jobs[k];
  }

  lemma SeenGroup(jobs: seq<Job>, name: string)
    requires name in Labels(jobs)
    ensures FirstSeen(jobs, name).Some?
  {
    LabelsAreTheGroups(jobs);
    ShardsOfAGroup(jobs, name);
    var j := Shards(jobs, name)[0];
    assert j in Shards(jobs, name);
  }

  /** Labels come out in first-seen order. */
  lemma {:induction false} LabelsInFirstSeenOrder(jobs: seq<Job>, i: nat, k: nat)
    requires i < k < |Labels(jobs)|
    ensures FirstSeen(jobs, Labels(jobs)[i]).Some? && FirstSeen(jobs, Labels(jobs)[k]).Some?
    ensures FirstSeen(jobs, Labels(jobs)[i]).value < FirstSeen(jobs, Labels(jobs)[k]).value
  {
    hide Shards, FirstSeen;
    var n := |jobs| - 1;
    var before := Labels(jobs[..n]);
    if k < |before| {
      LabelsInFirstSeenOrder(jobs[..n], i, k);
      FirstSeenInPrefix(jobs, n, before[i]);
      FirstSeenInPrefix(jobs, n, before[k]);
    } else {
      SeenGroup(jobs[..n], before[i]);
      FirstSeenInPrefix(jobs, n, before[i]);
      SeenGroup(jobs, Labels(jobs)[k]);
      NewGroupSeenLast(jobs);
      assert Labels(jobs)[k] == jobs[n].group;
      assert FirstSeen(jobs[..n], before[i]).value < n by { FirstSeenInRange(jobs[..n], before[i]); }
    }
  }

  lemma FirstSeenInRange(jobs: seq<Job>, name: string)
    ensures FirstSeen(jobs, name).Some? ==> FirstSeen(jobs, name).value < |jobs|
  {
  }

  lemma NewGroupSeenLast(jobs: seq<Job>)
    requires jobs != [] && jobs[|jobs| - 1].group !in Labels(jobs[..|jobs| - 1])
    requires FirstSeen(jobs, jobs[|jobs| - 1].group).Some?
    ensures FirstSeen(jobs, jobs[|jobs| - 1].group).value == |jobs| - 1
  {
    var n := |jobs| - 1;
    LabelsAreTheGroups(jobs[..n]);
    forall k | 0 <= k < n
      ensures jobs[k].group != jobs[n].group
    {
      assert jobs[..n][k] in jobs[..n];
    }
  }

  ghost function GroupSizes(jobs: seq<Job>, labels: seq<string>): seq<int> {
    seq(|labels|, i requires 0 <= i < |labels| => |Shards(jobs, labels[i])|)
  }

  /** Adding one job raises exactly its own group's count. */
  lemma {:induction false} GroupSizesAdd(jobs: seq<Job>, labels: seq<string>)
    requires jobs != [] && Distinct(labels)
    ensures var n := |jobs| - 1; var name := jobs[n].group;
      Sum(GroupSizes(jobs, labels)) == Sum(GroupSizes(jobs[..n], labels)) + if name in labels then 1 else 0
  {
    hide Labels;
    if labels == [] {
    } else {
      var n, m := |jobs| - 1, |labels| - 1;
      GroupSizesAdd(jobs, labels[..m]);
      assert GroupSizes(jobs, labels)[..m] == GroupSizes(jobs, labels[..m]);
      assert GroupSizes(jobs[..n], labels)[..m] == GroupSizes(jobs[..n], labels[..m]);
      assert labels == labels[..m] + [labels[m]];
    }
  }

  lemma NewGroupStartsAtZero(jobs: seq<Job>, name: string)
    requires name !in Labels(jobs)
    ensures Sum(GroupSizes(jobs, Labels(jobs) + [name])) == Sum(GroupSizes(jobs, Labels(jobs)))
  {
    var labels, more := Labels(jobs), Labels(jobs) + [name];
    UnseenGroup(jobs, name);
    var sizes := GroupSizes(jobs, more);
    assert sizes[..|labels|] == GroupSizes(jobs, labels);
    assert sizes[|labels|] == 0;
  }

  lemma {:induction false} GroupSizesSum(jobs: seq<Job>)
    ensures Sum(GroupSizes(jobs, Labels(jobs))) == |jobs|
  {
    if jobs == [] {
    } else {
      var n := |jobs| - 1;
      GroupSizesSum(jobs[..n]);
      LabelsAreTheGroups(jobs);
      GroupSizesAdd(jobs, Labels(jobs));
      var name := jobs[n].group;
      assert name in Labels(jobs);
      if name !in Labels(jobs[..n]) { NewGroupStartsAtZero(jobs[..n], name); }
    }
  }

  /** The ladder partitions the jobs: distinct labels that cover every job, one row
      count per label, no empty group, and the counts sum to the number of jobs. */
  lemma LadderPartitionsTheJobs(jobs: seq<Job>, color: string -> string)
    ensures var info := Ladder(jobs, color);
      && Distinct(info.stepLabels)
      && |info.stepLabels| == |info.stepRows| == |info.stepColors| == info.totalSteps
      && (forall j :: j in jobs ==> j.group in info.stepLabels)
      && (forall i :: 0 <= i < info.totalSteps ==> 1 <= info.stepRows[i] <= |jobs|)
      && Sum(info.stepRows) == |jobs|
      && (jobs != [] ==> info.totalSteps >= 1)
  {
    LabelsAreTheGroups(jobs);
    GroupSizesSum(jobs);
    var info := Ladder(jobs, color);
    assert info.stepRows == GroupSizes(jobs, Labels(jobs));
    forall i | 0 <= i < info.totalSteps
      ensures 1 <= info.stepRows[i] <= |jobs|
    {
      ShardsOfAGroup(jobs, Labels(jobs)[i]);
      assert Labels(jobs)[i] in Labels(jobs);
    }
    if jobs != [] { assert jobs[0].group in Labels(jobs); }
  }

  /** Some group is unfinished exactly when some job is. */
  lemma UnfinishedGroupExists(jobs: seq<Job>)
    ensures FirstUnfinished(jobs).Some? <==> !AllCompleted(jobs)
  {
    LabelsAreTheGroups(jobs);
    var labels := Labels(jobs);
    forall n | n in labels
      ensures Finished(Shards(jobs, n)) < |Shards(jobs, n)| <==> !AllCompleted(Shards(jobs, n))
    {
      FinishedBounds(Shards(jobs, n));
    }
    if !AllCompleted(jobs) {
      var j :| j in jobs && !j.status.Completed?;
      var name := j.group;
      ShardsOfAGroup(jobs, name);
      assert !AllCompleted(Shards(jobs, name));
      var i :| 0 <= i < |labels| && labels[i] == name;
      assert Finished(Shards(jobs, labels[i])) < |Shards(jobs, labels[i])|;
    } else if FirstUnfinished(jobs).Some? {
      var n := labels[FirstUnfinished(jobs).value];
      ShardsOfAGroup(jobs, n);
      FinishedBounds(Shards(jobs, n));
    }
  }

  ghost predicate GroupRuns(jobs: seq<Job>, name: string) {
    exists j :: j in jobs && j.group == name && j.status.InProgress?
  }

  ghost predicate GroupUnfinished(jobs: seq<Job>, name: string) {
    exists j :: j in jobs && j.group == name && !j.status.Completed?
  }

  lemma GroupStatus(jobs: seq<Job>, name: string)
    ensures AnyRunning(Shards(jobs, name)) <==> GroupRuns(jobs, name)
    ensures Finished(Shards(jobs, name)) < |Shards(jobs, name)| <==> GroupUnfinished(jobs, name)
  {
    hide Shards, Finished;
    ShardsOfAGroup(jobs, name);
    FinishedBounds(Shards(jobs, name));
  }

  lemma FirstRunningMeans(jobs: seq<Job>)
    ensures var r := FirstRunning(jobs); var labels := Labels(jobs);
      if r.None? then forall n :: n in labels ==> n == "" || !GroupRuns(jobs, n)
      else
        && r.value < |labels| && labels[r.value] != "" && GroupRuns(jobs, labels[r.value])
        && forall i :: 0 <= i < r.value ==> labels[i] == "" || !GroupRuns(jobs, labels[i])
  {
    hide Labels, Shards, AnyRunning, GroupRuns, FirstIndexFrom;
    forall n { GroupStatus(jobs, n); }
  }

  lemma FirstUnfinishedMeans(jobs: seq<Job>)
    ensures var r := FirstUnfinished(jobs); var labels := Labels(jobs);
      r.Some? ==>
        && r.value < |labels| && GroupUnfinished(jobs, labels[r.value])
        && forall i :: 0 <= i < r.value ==> !GroupUnfinished(jobs, labels[i])
  {
    hide Labels, Shards, Finished, GroupUnfinished, FirstIndexFrom;
    forall n { GroupStatus(jobs, n); }
  }

  /** What the ladder highlights: the first group with a running job (blank names
      aside), else, while anything is unfinished, the first unfinished group under the
      queued placeholder, else nothing. */
  lemma LadderHighlight(jobs: seq<Job>, color: string -> string)
    ensures var info := Ladder(jobs, color); var labels := info.stepLabels; var c := info.currentStep - 1;
      && 0 <= info.currentStep <= info.totalSteps
      && (info.currentStep == 0 <==> info.allCompleted)
      && (info.allCompleted ==> info.currentStepName == "")
      && (!info.allCompleted && (exists n :: n in labels && n != "" && GroupRuns(jobs, n)) ==>
            && info.currentStepName == labels[c] != ""
            && GroupRuns(jobs, labels[c])
            && (forall i :: 0 <= i < c ==> labels[i] == "" || !GroupRuns(jobs, labels[i])))
      && (!info.allCompleted && (forall n :: n in labels ==> n == "" || !GroupRuns(jobs, n)) ==>
            && info.currentStepName == QUEUED_STEP_NAME
            && GroupUnfinished(jobs, labels[c])
            && (forall i :: 0 <= i < c ==> !GroupUnfinished(jobs, labels[i])))
  {
    hide Labels, Shards, Finished, FirstStart, FirstRunning, FirstUnfinished, GroupRuns, GroupUnfinished;
    UnfinishedGroupExists(jobs);
    FirstRunningMeans(jobs);
    FirstUnfinishedMeans(jobs);
    RunningIsUnfinished(jobs);
  }

  lemma RunningIsUnfinished(jobs: seq<Job>)
    ensures AllCompleted(jobs) ==> forall n :: !GroupRuns(jobs, n)
  {
  }

  lemma LadderProgress(jobs: seq<Job>, color: string -> string)
    ensures 0.0 <= Ladder(jobs, color).progress <= 1.0
    ensures jobs != [] ==> (Ladder(jobs, color).progress == 1.0 <==> Ladder(jobs, color).allCompleted)
  {
    FinishedBounds(jobs);
    if jobs != [] { RatioInUnitInterval(Finished(jobs), |jobs|); }
  }

  /** A run has failed so far when a finished job ended neither well nor skipped nor in a way
      the program does not know; each step has the color of its group. */
  lemma LadderFailsAndColors(jobs: seq<Job>, color: string -> string)
    ensures var info := Ladder(jobs, color);
      && (info.anyFailed <==>
          exists j :: j in jobs && j.status.Completed? && j.conclusion != Success && j.conclusion != Skipped && j.conclusion != Unknown)
      && |info.stepColors| == |info.stepLabels| && forall i :: 0 <= i < |info.stepColors| ==> info.stepColors[i] == color(info.stepLabels[i])
  {
    hide Labels, Shards, Finished, FirstStart, FirstRunning, FirstUnfinished, AllCompleted;
  }

  /** Finished counts the finished jobs. */
  lemma {:induction false} FinishedCounts(jobs: seq<Job>, done: set<nat>)
    requires forall k :: k in done <==> 0 <= k < |jobs| && jobs[k].status.Completed?
    ensures Finished(jobs) == |done|
  {
    if jobs == [] {
      assert done == {};
    } else {
      var n: nat := |jobs| - 1;
      FinishedCounts(jobs[..n], done - {n});
      assert n in done ==> |done| == |done - {n}| + 1;
      assert n !in done ==> done - {n} == done;
    }
  }

  lemma RatioInUnitInterval(f: nat, n: nat)
    requires 0 < n && f <= n
    ensures 0.0 <= f as real / n as real <= 1.0
    ensures f as real / n as real == 1.0 <==> f == n
  {
    var q := f as real / n as real;
    assert q * n as real == f as real;
    assert q * n as real <= 1.0 * n as real;
    assert (1.0 - q) * n as real >= 0.0;
  }

  // ---------- ComputeSteps ----------

  datatype Step = Step(name: string, count: nat, completed: nat, active: bool, startedAt: Time)

  function StepOf(jobs: seq<Job>, name: string): Step {
    var s := Shards(jobs, name);
    Step(name, |s|, Finished(s), AnyRunning(s), FirstStart(s))
  }

  /** One more job leaves every other group's record alone. */
  lemma StepOfNext(jobs: seq<Job>, name: string)
    requires jobs != []
    ensures var n := |jobs| - 1; var job := jobs[n]; var before := StepOf(jobs[..n], name);
      StepOf(jobs, name) ==
        if job.group != name then before
        else Step(name, before.count + 1,
                  before.completed + if job.status.Completed? then 1 else 0,
                  before.active || job.status.InProgress?,
                  Earliest(before.startedAt, job.startedAt))
  {
    var n := |jobs| - 1;
    if jobs[n].group == name {
      var s, t := Shards(jobs, name), Shards(jobs[..n], name);
      assert s == t + [jobs[n]];
      assert s[..|s| - 1] == t;
    }
  }

  lemma StepsOfPrefix(jobs: seq<Job>)
    requires jobs != []
    ensures var n := |jobs| - 1; var job := jobs[n]; var p := jobs[..n];
      && Finished(jobs) == Finished(p) + (if job.status.Completed? then 1 else 0)
      && AllCompleted(jobs) == (AllCompleted(p) && job.status.Completed?)
      && AnyJobFailed(jobs) == (AnyJobFailed(p) || (job.status.Completed? && JobFailed(job.conclusion)))
  {
    assert jobs == jobs[..|jobs| - 1] + [jobs[|jobs| - 1]];
  }

  /** A group not seen so far has an empty record. */
  lemma UnseenGroup(jobs: seq<Job>, name: string)
    requires name !in Labels(jobs)
    ensures StepOf(jobs, name) == Step(name, 0, 0, false, 0)
  {
    LabelsAreTheGroups(jobs);
    ShardsOfAGroup(jobs, name);
    var s := Shards(jobs, name);
    assert forall i :: 0 <= i < |s| ==> s[i] in s;
  }

  /** steps is the record of every group of jobs, in label order. */
  ghost predicate Records(jobs: seq<Job>, steps: seq<Step>) {
    && |steps| == |Labels(jobs)|
    && forall i :: 0 <= i < |steps| ==> steps[i] == StepOf(jobs, Labels(jobs)[i])
  }

  function Count(s: Step, job: Job): Step {
    Step(s.name, s.count + 1,
      s.completed + if job.status.Completed? then 1 else 0,
      s.active || job.status.InProgress?,
      Earliest(s.startedAt, job.startedAt))
  }

  lemma NothingRecorded()
    ensures Records([], []) && Finished([]) == 0 && AllCompleted([]) && !AnyJobFailed([])
  {
  }

  ghost predicate Recorded(steps: seq<Step>, name: string) {
    exists i :: 0 <= i < |steps| && steps[i].name == name
  }

  lemma {:induction false} LabelsNext(jobs: seq<Job>)
    requires jobs != []
    ensures var before := Labels(jobs[..|jobs| - 1]); var base := jobs[|jobs| - 1].group;
      Labels(jobs) == if base in before then before else before + [base]
  {
  }

  /** Counting the last job into its group's record keeps the records true. */
  lemma CountKeepsRecords(jobs: seq<Job>, before: seq<Step>, steps: seq<Step>, si: nat)
    requires jobs != []
    requires Records(jobs[..|jobs| - 1], before)
    requires var base := jobs[|jobs| - 1].group;
      && (steps == before || (steps == before + [Step(base, 0, 0, false, 0)] && !Recorded(before, base)))
      && si < |steps| && steps[si].name == base
    ensures Records(jobs, steps[si := Count(steps[si], jobs[|jobs| - 1])])
  {
    var n := |jobs| - 1;
    var seen, base := jobs[..n], jobs[n].group;
    hide Labels, Shards, Earliest;
    LabelsNext(jobs);
    LabelsAreTheGroups(jobs);
    var labels := Labels(jobs);
    assert Recorded(steps, base);
    RecordsExtend(seen, base, before, steps, labels);
    forall i | 0 <= i < |steps|
      ensures steps[si := Count(steps[si], jobs[n])][i] == StepOf(jobs, labels[i])
    {
      CountedRecord(jobs, labels[i]);
      assert steps[i].name == labels[i];
    }
  }

  lemma RecordsExtend(seen: seq<Job>, base: string, before: seq<Step>, steps: seq<Step>, labels: seq<string>)
    requires Records(seen, before)
    requires labels == if base in Labels(seen) then Labels(seen) else Labels(seen) + [base]
    requires steps == before || (steps == before + [Step(base, 0, 0, false, 0)] && !Recorded(before, base))
    requires Recorded(steps, base)
    ensures |steps| == |labels| && forall i :: 0 <= i < |steps| ==> steps[i] == StepOf(seen, labels[i])
  {
    hide Labels, Shards;
    var known := Labels(seen);
    assert forall i :: 0 <= i < |before| ==> before[i].name == known[i];
    if base !in known {
      UnseenGroup(seen, base);
    } else {
      var i :| 0 <= i < |known| && known[i] == base;
      assert before[i].name == base;
    }
  }

  lemma CountedRecord(jobs: seq<Job>, name: string)
    requires jobs != []
    ensures var n := |jobs| - 1; var before := StepOf(jobs[..n], name);
      StepOf(jobs, name) == if jobs[n].group == name then Count(before, jobs[n]) else before
  {
    hide Shards;
    StepOfNext(jobs, name);
  }

  /** The grouping pass: one record per base name, found through a name index. */
  method GroupJobs(jobs: seq<ForgeJob>) returns (steps: seq<Step>, completedJobs: nat, allCompleted: bool, anyFailed: bool)
    ensures var all := GroupedAll(jobs);
      && Records(all, steps)
      && completedJobs == Finished(all) && allCompleted == AllCompleted(all) && anyFailed == AnyJobFailed(all)
  {
    hide Labels, Shards, StepOf, Records, Finished, AllCompleted, AnyJobFailed, BaseJobName, Earliest, JobFailed;
    steps := [];
    var stepIdx: map<string, nat> := map[];
    completedJobs, allCompleted, anyFailed := 0, true, false;
    ghost var all := GroupedAll(jobs);
    NothingRecorded();
    assert all[..0] == [];
    for k := 0 to |jobs|
      invariant Records(all[..k], steps)
      invariant forall n :: n in stepIdx ==> stepIdx[n] < |steps| && steps[stepIdx[n]].name == n
      invariant forall i :: 0 <= i < |steps| ==> steps[i].name in stepIdx
      invariant completedJobs == Finished(all[..k])
      invariant allCompleted == AllCompleted(all[..k])
      invariant anyFailed == AnyJobFailed(all[..k])
    {
      ghost var next, before := all[..k + 1], steps;
      assert next[..k] == all[..k] && next[k] == Grouped(jobs[k]);
      StepsOfPrefix(next);

      var job := jobs[k];
      var base := BaseJobName(job.name);
      var si: nat;
      if base in stepIdx {
        si := stepIdx[base];
      } else {
        si := |steps|;
        stepIdx := stepIdx[base := si];
        steps := steps + [Step(base, 0, 0, false, 0)];
      }
      CountKeepsRecords(next, before, steps, si);
      var s := steps[si];
      s := s.(count := s.count + 1, startedAt := Earliest(s.startedAt, job.startedAt));
      match job.status {
        case Completed =>
          completedJobs := completedJobs + 1;
          s := s.(completed := s.completed + 1);
          if JobFailed(job.conclusion) {
            anyFailed := true;
          }
        case InProgress =>
          s := s.(active := true);
          allCompleted := false;
        case Waiting =>
          allCompleted := false;
      }
      assert s == Count(steps[si], next[k]);
      steps := steps[si := s];
    }
    assert all[..|jobs|] == all;
  }

  ghost predicate Highlights(s: Step) { s.active && s.name != "" }

  ghost predicate FirstHighlighted(steps: seq<Step>, i: nat) {
    i < |steps| && Highlights(steps[i]) && forall q :: 0 <= q < i ==> !Highlights(steps[q])
  }

  ghost predicate FirstPending(steps: seq<Step>, i: nat) {
    && i < |steps| && steps[i].completed < steps[i].count
    && forall q :: 0 <= q < i ==> steps[q].completed >= steps[q].count
  }

  /** current and name are the highlight of these records. */
  ghost predicate Highlighted(steps: seq<Step>, allCompleted: bool, current: nat, name: string) {
    && current <= |steps|
    && (forall i :: 0 <= i < |steps| && FirstHighlighted(steps, i) ==> current == i + 1 && name == steps[i].name)
    && ((forall i :: 0 <= i < |steps| ==> !Highlights(steps[i])) ==>
          if allCompleted then current == 0 && name == ""
          else name == QUEUED_STEP_NAME && forall i :: 0 <= i < |steps| && FirstPending(steps, i) ==> current == i + 1)
  }

  /** The highlight pass over the finished records. */
  method Highlight(steps: seq<Step>, allCompleted: bool) returns (currentStep: nat, currentStepName: string)
    requires allCompleted ==> forall i :: 0 <= i < |steps| ==> !steps[i].active
    ensures Highlighted(steps, allCompleted, currentStep, currentStepName)
  {
    currentStep, currentStepName := 0, "";
    for i := 0 to |steps|
      invariant currentStep <= i
      invariant currentStepName == "" ==> forall q :: 0 <= q < i ==> !Highlights(steps[q])
      invariant currentStepName == "" && currentStep > 0 ==> steps[currentStep - 1].active
      invariant currentStepName != "" ==>
        currentStep > 0 && FirstHighlighted(steps, currentStep - 1) && steps[currentStep - 1].name == currentStepName
    {
      if steps[i].active && currentStepName == "" {
        currentStepName := steps[i].name;
        currentStep := i + 1;
      }
    }
    if currentStepName == "" && !allCompleted {
      currentStepName := QUEUED_STEP_NAME;
      for i := 0 to |steps|
        invariant currentStep <= |steps|
        invariant forall q :: 0 <= q < i ==> steps[q].completed >= steps[q].count
      {
        if steps[i].completed < steps[i].count {
          currentStep := i + 1;
          break;
        }
      }
    }
  }

  lemma RecordsHighlight(jobs: seq<Job>, steps: seq<Step>)
    requires Records(jobs, steps)
    ensures AllCompleted(jobs) ==> forall i :: 0 <= i < |steps| ==> !steps[i].active
    ensures FirstRunning(jobs).None? ==> forall i :: 0 <= i < |steps| ==> !Highlights(steps[i])
    ensures FirstRunning(jobs).Some? ==> FirstHighlighted(steps, FirstRunning(jobs).value)
    ensures AllCompleted(jobs) <==> FirstUnfinished(jobs).None?
    ensures FirstUnfinished(jobs).Some? ==> FirstPending(steps, FirstUnfinished(jobs).value)
  {
    UnfinishedGroupExists(jobs);
    forall i | 0 <= i < |steps| && AllCompleted(jobs)
      ensures !steps[i].active
    {
      ShardsOfAGroup(jobs, Labels(jobs)[i]);
    }
  }

  /** The wire columns of the records. */
  method Columns(steps: seq<Step>, color: string -> string)
    returns (stepRows: seq<int>, stepLabels: seq<string>, stepColors: seq<string>)
    ensures |stepRows| == |stepLabels| == |stepColors| == |steps|
    ensures forall q :: 0 <= q < |steps| ==> stepRows[q] == steps[q].count
    ensures forall q :: 0 <= q < |steps| ==> stepLabels[q] == steps[q].name
    ensures forall q :: 0 <= q < |steps| ==> stepColors[q] == color(steps[q].name)
  {
    stepRows, stepLabels, stepColors := [], [], [];
    for i := 0 to |steps|
      invariant |stepRows| == |stepLabels| == |stepColors| == i
      invariant forall q :: 0 <= q < i ==> stepRows[q] == steps[q].count
      invariant forall q :: 0 <= q < i ==> stepLabels[q] == steps[q].name
      invariant forall q :: 0 <= q < i ==> stepColors[q] == color(steps[q].name)
    {
      stepRows, stepLabels, stepColors :=
        stepRows + [steps[i].count], stepLabels + [steps[i].name], stepColors + [color(steps[i].name)];
    }
  }

  /** The highlight pass finds the ladder's current step. */
  lemma LadderCurrent(jobs: seq<Job>, color: string -> string, steps: seq<Step>, currentStep: nat, currentStepName: string)
    requires Records(jobs, steps)
    requires Highlighted(steps, AllCompleted(jobs), currentStep, currentStepName)
    ensures var want := Ladder(jobs, color);
      && want.currentStep == currentStep <= |steps|
      && want.currentStepName == currentStepName
      && want.currentStepStartedAt == if currentStep >= 1 then steps[currentStep - 1].startedAt else 0
  {
    hide Labels, Shards, AllCompleted, AnyJobFailed, Finished, FirstRunning, FirstUnfinished, AnyRunning;
    RecordsHighlight(jobs, steps);
    hide FirstHighlighted, FirstPending, Highlights, FirstStart;
    if FirstRunning(jobs).Some? {
      assert currentStep == FirstRunning(jobs).value + 1;
    }
  }

  /** The ladder's columns, read off the records. */
  lemma LadderColumns(jobs: seq<Job>, color: string -> string, steps: seq<Step>,
                      rows: seq<int>, labels: seq<string>, colors: seq<string>)
    requires Records(jobs, steps)
    requires |rows| == |labels| == |colors| == |steps|
    requires forall q :: 0 <= q < |steps| ==> rows[q] == steps[q].count
    requires forall q :: 0 <= q < |steps| ==> labels[q] == steps[q].name
    requires forall q :: 0 <= q < |steps| ==> colors[q] == color(steps[q].name)
    ensures var want := Ladder(jobs, color);
      && rows == want.stepRows && labels == want.stepLabels && colors == want.stepColors && want.totalSteps == |steps|
  {
    hide Labels, Shards;
    var want := Ladder(jobs, color);
    assert labels == want.stepLabels;
    assert rows == want.stepRows;
    assert colors == want.stepColors;
  }

  method ComputeSteps(jobs: seq<ForgeJob>, color: string -> string) returns (info: StepInfo)
    ensures info == Ladder(GroupedAll(jobs), color)
  {
    var steps, completedJobs, allCompleted, anyFailed := GroupJobs(jobs);
    var stepRows, stepLabels, stepColors := Columns(steps, color);
    ghost var all := GroupedAll(jobs);
    RecordsHighlight(all, steps);
    var currentStep, currentStepName := Highlight(steps, allCompleted);
    LadderColumns(all, color, steps, stepRows, stepLabels, stepColors);
    LadderCurrent(all, color, steps, currentStep, currentStepName);
    var progress := if |jobs| > 0 then completedJobs as real / |jobs| as real else 0.0;
    var currentStartedAt: Time := if currentStep >= 1 then steps[currentStep - 1].startedAt else 0;
    info := StepInfo(|steps|, currentStep, currentStepName, stepRows, stepLabels, stepColors,
                     currentStartedAt, allCompleted, anyFailed, progress);
    hide Labels, Shards, Finished, FirstRunning, FirstUnfinished, StepOf, AllCompleted, AnyJobFailed, Records;
  }

  // ---------- Carrying a step index across label lists ----------

  function IndexOf(s: seq<string>, x: string): Option<nat> {
    FirstIndex(s, y => y == x)
  }

  function RealignStep(current: int, from: seq<string>, to: seq<string>): int {
    if current < 1 || current > |from| then current
    else
      match IndexOf(to, from[current - 1])
      case Some(i) => i + 1
      case None => current
  }

  /** The highlighted group survives the move whenever the target list has it, and the
      index stays inside any list at least as long as the one it came from. */
  lemma RealignKeepsTheGroup(current: int, from: seq<string>, to: seq<string>)
    requires 0 <= current <= |from|
    ensures var r := RealignStep(current, from, to);
      && (1 <= current && from[current - 1] in to ==> 1 <= r <= |to| && to[r - 1] == from[current - 1])
      && (1 <= current && from[current - 1] !in to ==> r == current)
      && (|from| <= |to| ==> 0 <= r <= |to|)
      && (r == 0 <==> current == 0)
  {
    if 1 <= current && from[current - 1] in to {
      var i :| 0 <= i < |to| && to[i] == from[current - 1];
    }
  }
}
