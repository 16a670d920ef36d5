/** forgejo/internal/forgejo/tasks.go: timings joined onto a run's jobs from pages of the
    repo-wide task list, which may shift between two page requests. */
module TaskJoin {
  import opened Prelude
  import opened Clock

  const TASK_PAGE_SIZE: nat := 50
  const MAX_TASK_PAGES: nat := 6
  const STOPPED_SLACK: nat := 60 * SECOND
  const MAX_RUN_SPAN: nat := 12 * 3600 * SECOND

  /** A task id of zero means the job has none. */
  datatype Job = Job(name: string, taskId: int, startedAt: Time, completedAt: Time)

  datatype Row = Row(id: int, runStartedAt: Time, updatedAt: Time, terminal: bool)

  /** What a page request comes back with. */
  datatype Page = Failed | Served(rows: seq<Row>)

  datatype Run = Run(stoppedAt: Time, startedAt: Time, createdAt: Time)

  /** The bound on stored completions; zero when there is none. */
  function CompletionBound(run: Run): (b: Time)
    ensures IsZero(b) <==> IsZero(run.stoppedAt) && IsZero(run.startedAt) && IsZero(run.createdAt)
  {
    if !IsZero(run.stoppedAt) then run.stoppedAt + STOPPED_SLACK
    else if !IsZero(run.startedAt) then run.startedAt + MAX_RUN_SPAN
    else if !IsZero(run.createdAt) then run.createdAt + MAX_RUN_SPAN
    else 0
  }

  // ---------- One join ----------

  /** The row that a join by id picks: the last one listed. */
  function LastRow(rows: seq<Row>, id: int): Option<Row> {
    if rows == [] then None
    else if rows[|rows| - 1].id == id then Some(rows[|rows| - 1])
    else LastRow(rows[..|rows| - 1], id)
  }

  /** The row served first. */
  function FirstRow(rows: seq<Row>, id: int): Option<Row> {
    if rows == [] then None
    else if FirstRow(rows[..|rows| - 1], id).Some? then FirstRow(rows[..|rows| - 1], id)
    else if rows[|rows| - 1].id == id then Some(rows[|rows| - 1])
    else None
  }

  /** A finished row whose completion is later than the bound was edited after the run. */
  predicate Rewritten(row: Row, bound: Time) {
    row.terminal && !IsZero(bound) && row.updatedAt > bound
  }

  function Stamped(job: Job, row: Row, bound: Time): Job {
    if row.terminal && !Rewritten(row, bound)
    then job.(startedAt := row.runStartedAt, completedAt := row.updatedAt)
    else job.(startedAt := row.runStartedAt)
  }

  function Stamp(job: Job, row: Option<Row>, bound: Time): Job {
    match row
    case None => job
    case Some(r) => Stamped(job, r, bound)
  }

  function JoinedLast(jobs: seq<Job>, rows: seq<Row>, bound: Time): (r: seq<Job>)
    ensures |r| == |jobs| && forall i :: 0 <= i < |jobs| ==> r[i] == Stamp(jobs[i], LastRow(rows, jobs[i].taskId), bound)
  {
    seq(|jobs|, i requires 0 <= i < |jobs| => Stamp(jobs[i], LastRow(rows, jobs[i].taskId), bound))
  }

  /** One join against the rows as first served. */
  function Joined(jobs: seq<Job>, rows: seq<Row>, bound: Time): (r: seq<Job>)
    ensures |r| == |jobs| && forall i :: 0 <= i < |jobs| ==> r[i] == Stamp(jobs[i], FirstRow(rows, jobs[i].taskId), bound)
  {
    seq(|jobs|, i requires 0 <= i < |jobs| => Stamp(jobs[i], FirstRow(rows, jobs[i].taskId), bound))
  }

  /** How many jobs have a row, and how many of those rows were rewritten. */
  function Matched(jobs: seq<Job>, rows: seq<Row>): nat {
    if jobs == [] then 0
    else Matched(jobs[..|jobs| - 1], rows) + (if LastRow(rows, jobs[|jobs| - 1].taskId).Some? then 1 else 0)
  }

  function Edited(jobs: seq<Job>, rows: seq<Row>, bound: Time): nat {
    if jobs == [] then 0
    else
      var row := LastRow(rows, jobs[|jobs| - 1].taskId);
      Edited(jobs[..|jobs| - 1], rows, bound) + (if row.Some? && Rewritten(row.value, bound) then 1 else 0)
  }

  /** Rows by id, the last one listed winning. */
  method IndexRows(tasks: seq<Row>) returns (byId: map<int, Row>)
    ensures forall id :: LastRow(tasks, id) == if id in byId then Some(byId[id]) else None
  {
    byId := map[];
    var t := 0;
    while t < |tasks|
      invariant t <= |tasks|
      invariant forall id :: LastRow(tasks[..t], id) == if id in byId then Some(byId[id]) else None
    {
      assert tasks[..t + 1][..t] == tasks[..t];
      byId := byId[tasks[t].id := tasks[t]];
      t := t + 1;
    }
    assert tasks[..t] == tasks;
  }

  /** The join itself, in place over the jobs. */
  method JoinTasks(jobs: array<Job>, tasks: seq<Row>, bound: Time) returns (matched: nat, rewritten: nat)
    modifies jobs
    ensures jobs[..] == JoinedLast(old(jobs[..]), tasks, bound)
    ensures matched == Matched(old(jobs[..]), tasks) && rewritten == Edited(old(jobs[..]), tasks, bound)
  {
    ghost var was := jobs[..];
    var byId := IndexRows(tasks);
    hide LastRow;
    matched, rewritten := 0, 0;
    var i := 0;
    while i < jobs.Length
      invariant i <= jobs.Length
      invariant forall k :: 0 <= k < i ==> jobs[k] == Stamp(was[k], LastRow(tasks, was[k].taskId), bound)
      invariant forall k :: i <= k < jobs.Length ==> jobs[k] == was[k]
      invariant matched == Matched(was[..i], tasks) && rewritten == Edited(was[..i], tasks, bound)
    {
      assert was[..i + 1][..i] == was[..i];
      if jobs[i].taskId in byId {
        var row := byId[jobs[i].taskId];
        matched := matched + 1;
        if row.terminal && !IsZero(bound) && row.updatedAt > bound {
          rewritten := rewritten + 1;
          jobs[i] := jobs[i].(startedAt := row.runStartedAt);
        } else if row.terminal {
          jobs[i] := jobs[i].(startedAt := row.runStartedAt, completedAt := row.updatedAt);
        } else {
          jobs[i] := jobs[i].(startedAt := row.runStartedAt);
        }
      }
      i := i + 1;
    }
    assert was[..i] == was;
  }

  // ---------- The walk over pages ----------

  predicate HasRow(rows: seq<Row>, id: int) { FirstRow(rows, id).Some? }

  /** The rows of a page not served before, on an earlier page or further up this one. */
  function NewRows(read: seq<Row>, page: seq<Row>): seq<Row> {
    if page == [] then [] else
      var before := page[..|page| - 1];
      var row := page[|page| - 1];
      if HasRow(read + before, row.id) then NewRows(read, before) else NewRows(read, before) + [row]
  }

  lemma {:induction false} FirstRowOf(a: seq<Row>, b: seq<Row>, id: int)
    ensures FirstRow(a + b, id) == if HasRow(a, id) then FirstRow(a, id) else FirstRow(b, id)
  {
    if b == [] {
      assert a + b == a;
    } else {
      var n := |b| - 1;
      assert (a + b)[..|a + b| - 1] == a + b[..n];
      FirstRowOf(a, b[..n], id);
    }
  }

  /** Joining only the new rows of a page reads each id's first row, and no id twice. */
  lemma {:induction false} LastOfNewRows(read: seq<Row>, page: seq<Row>, id: int)
    ensures LastRow(NewRows(read, page), id) == if HasRow(read, id) then None else FirstRow(page, id)
  {
    if page != [] {
      var n := |page| - 1;
      LastOfNewRows(read, page[..n], id);
      FirstRowOf(read, page[..n], page[n].id);
      var before := NewRows(read, page[..n]);
      assert (before + [page[n]])[..|before|] == before;
    }
  }

  /** One more page: the joins so far and one over its new rows are one join over all rows
      as first served. */
  lemma JoinStep(jobs: seq<Job>, read: seq<Row>, page: seq<Row>, bound: Time)
    ensures JoinedLast(Joined(jobs, read, bound), NewRows(read, page), bound) == Joined(jobs, read + page, bound)
  {
    hide JoinedLast, Joined, LastRow, FirstRow, NewRows;
    forall i | 0 <= i < |jobs|
      ensures JoinedLast(Joined(jobs, read, bound), NewRows(read, page), bound)[i] == Joined(jobs, read + page, bound)[i]
    {
      LastOfNewRows(read, page, jobs[i].taskId);
      FirstRowOf(read, page, jobs[i].taskId);
    }
  }

  /** The jobs a set of rows joins. */
  function Count(jobs: seq<Job>, rows: seq<Row>): nat {
    if jobs == [] then 0
    else Count(jobs[..|jobs| - 1], rows) + (if HasRow(rows, jobs[|jobs| - 1].taskId) then 1 else 0)
  }

  function Want(jobs: seq<Job>): nat {
    if jobs == [] then 0
    else Want(jobs[..|jobs| - 1]) + (if jobs[|jobs| - 1].taskId != 0 then 1 else 0)
  }

  lemma JoinedPrefix(jobs: seq<Job>, rows: seq<Row>, bound: Time, n: nat)
    requires n <= |jobs|
    ensures Joined(jobs, rows, bound)[..n] == Joined(jobs[..n], rows, bound)
  {
  }

  lemma {:induction false} CountStep(jobs: seq<Job>, read: seq<Row>, page: seq<Row>, bound: Time)
    ensures Count(jobs, read + page) == Count(jobs, read) + Matched(Joined(jobs, read, bound), NewRows(read, page))
  {
    if jobs != [] {
      var n := |jobs| - 1;
      CountStep(jobs[..n], read, page, bound);
      JoinedPrefix(jobs, read, bound, n);
      LastOfNewRows(read, page, jobs[n].taskId);
      FirstRowOf(read, page, jobs[n].taskId);
      hide FirstRow, LastRow, NewRows, Joined;
    }
  }

  /** The rows of pages 1 to n, as served. */
  function Read(pages: nat -> Page, n: nat): seq<Row> {
    if n == 0 then [] else
      Read(pages, n - 1) + match pages(n) case Failed => [] case Served(rows) => rows
  }

  /** Why the walk went on to page n, and no further. */
  ghost predicate WalkedTo(jobs: seq<Job>, pages: nat -> Page, n: nat) {
    && n <= MAX_TASK_PAGES
    && (forall k :: 1 <= k <= n ==> pages(k).Served? && pages(k).rows != [])
    && (forall k :: 1 <= k < n ==> |pages(k).rows| >= TASK_PAGE_SIZE)
    && (forall k :: 0 <= k < n ==> Count(jobs, Read(pages, k)) < Want(jobs))
  }

  ghost predicate StoppedAt(jobs: seq<Job>, pages: nat -> Page, n: nat) {
    || Count(jobs, Read(pages, n)) >= Want(jobs)
    || n >= MAX_TASK_PAGES
    || pages(n + 1).Failed?
    || pages(n + 1).rows == []
    || (n > 0 && pages(n).Served? && |pages(n).rows| < TASK_PAGE_SIZE)
  }

  lemma WalkOn(jobs: seq<Job>, pages: nat -> Page, n: nat)
    requires n < MAX_TASK_PAGES && WalkedTo(jobs, pages, n) && Count(jobs, Read(pages, n)) < Want(jobs)
    requires n > 0 ==> pages(n).Served? && |pages(n).rows| >= TASK_PAGE_SIZE
    requires pages(n + 1).Served? && pages(n + 1).rows != []
    ensures WalkedTo(jobs, pages, n + 1)
    ensures Read(pages, n + 1) == Read(pages, n) + pages(n + 1).rows
  {
    hide Count, Want;
  }

  lemma PageJoined(jobs: seq<Job>, read: seq<Row>, page: seq<Row>, bound: Time)
    ensures var joined := Joined(jobs, read, bound); var unseen := NewRows(read, page);
      && JoinedLast(joined, unseen, bound) == Joined(jobs, read + page, bound)
      && Count(jobs, read) + Matched(joined, unseen) == Count(jobs, read + page)
  {
    hide Count, Matched, Joined, JoinedLast, NewRows;
    JoinStep(jobs, read, page, bound);
    CountStep(jobs, read, page, bound);
  }

  method CountWanted(jobs: array<Job>) returns (want: nat)
    ensures want == Want(jobs[..])
  {
    want := 0;
    var i := 0;
    while i < jobs.Length
      invariant i <= jobs.Length && want == Want(jobs[..i])
    {
      assert jobs[..i + 1][..i] == jobs[..i];
      if jobs[i].taskId != 0 {
        want := want + 1;
      }
      i := i + 1;
    }
    assert jobs[..i] == jobs[..];
  }

  /** Drops the rows whose id was already seen, and remembers the rest. */
  method DropSeen(page: seq<Row>, seen: set<int>, ghost read: seq<Row>) returns (unseen: seq<Row>, seen': set<int>)
    requires forall id :: id in seen <==> HasRow(read, id)
    ensures unseen == NewRows(read, page)
    ensures forall id :: id in seen' <==> HasRow(read + page, id)
  {
    unseen, seen' := [], seen;
    var i := 0;
    assert read + page[..0] == read;
    while i < |page|
      invariant i <= |page| && unseen == NewRows(read, page[..i])
      invariant forall id :: id in seen' <==> HasRow(read + page[..i], id)
    {
      assert page[..i + 1][..i] == page[..i];
      assert (read + page[..i + 1])[..|read| + i] == read + page[..i];
      if page[i].id !in seen' {
        seen' := seen' + {page[i].id};
        unseen := unseen + [page[i]];
      }
      i := i + 1;
    }
    assert page[..i] == page;
  }

  /** The historic walk: however the list shifts between requests, its joins come to one
      join of the jobs with the rows as first served. */
  method StampHistoric(jobs: array<Job>, pages: nat -> Page, bound: Time) returns (matched: nat, want: nat, ghost n: nat)
    modifies jobs
    ensures want == Want(old(jobs[..])) && matched == Count(old(jobs[..]), Read(pages, n))
    ensures jobs[..] == Joined(old(jobs[..]), Read(pages, n), bound)
    ensures WalkedTo(old(jobs[..]), pages, n) && (want > 0 ==> StoppedAt(old(jobs[..]), pages, n))
  {
    ghost var was := jobs[..];
    want := CountWanted(jobs);
    matched, n := 0, 0;
    NothingRead(was, bound);
    assert WalkedTo(was, pages, 0);
    if want == 0 {
      return;
    }
    hide Count, Want, FirstRow, LastRow, NewRows, Matched, Edited, Joined, JoinedLast, WalkedTo, HasRow;
    var seen: set<int> := {};
    var page := 1;
    assert forall id :: !HasRow([], id) by { NoRows(); }
    while page <= MAX_TASK_PAGES && matched < want
      invariant n == page - 1 && WalkedTo(was, pages, n)
      invariant n > 0 ==> pages(n).Served? && |pages(n).rows| >= TASK_PAGE_SIZE
      invariant matched == Count(was, Read(pages, n))
      invariant jobs[..] == Joined(was, Read(pages, n), bound)
      invariant forall id :: id in seen <==> HasRow(Read(pages, n), id)
    {
      var served := pages(page);
      if served.Failed? || served.rows == [] {
        break;
      }
      ghost var read := Read(pages, n);
      var unseen: seq<Row>;
      unseen, seen := DropSeen(served.rows, seen, read);
      PageJoined(was, read, served.rows, bound);
      WalkOn(was, pages, n);
      var m, _ := JoinTasks(jobs, unseen, bound);
      matched := matched + m;
      n := page;
      if |served.rows| < TASK_PAGE_SIZE {
        break;
      }
      page := page + 1;
    }
  }

  lemma NoRows()
    ensures forall id :: !HasRow([], id)
  {
  }

  lemma {:induction false} NothingRead(jobs: seq<Job>, bound: Time)
    ensures Joined(jobs, [], bound) == jobs && Count(jobs, []) == 0
  {
    if jobs != [] {
      NothingRead(jobs[..|jobs| - 1], bound);
    }
  }

  // ---------- What the walk promises ----------

  ghost predicate NonZeroIds(rows: seq<Row>) {
    forall i :: 0 <= i < |rows| ==> rows[i].id != 0
  }

  ghost predicate AllJoined(jobs: seq<Job>, rows: seq<Row>) {
    forall i :: 0 <= i < |jobs| && jobs[i].taskId != 0 ==> HasRow(rows, jobs[i].taskId)
  }

  lemma {:induction false} NoZeroRow(rows: seq<Row>)
    requires NonZeroIds(rows)
    ensures !HasRow(rows, 0)
  {
    if rows != [] {
      NoZeroRow(rows[..|rows| - 1]);
    }
  }

  /** The count stops the walk exactly when every job with a task id is joined - task ids
      of rows being non-zero. */
  lemma {:induction false} CountMeansAllJoined(jobs: seq<Job>, rows: seq<Row>)
    requires NonZeroIds(rows)
    ensures Count(jobs, rows) <= Want(jobs)
    ensures Count(jobs, rows) >= Want(jobs) <==> AllJoined(jobs, rows)
  {
    if jobs != [] {
      var n := |jobs| - 1;
      CountMeansAllJoined(jobs[..n], rows);
      NoZeroRow(rows);
      hide HasRow;
    }
  }

  /** A row with id zero would join jobs that have no task, and end the walk early. */
  lemma ZeroIdsWouldStopItEarly(rows: seq<Row>, id: int)
    requires HasRow(rows, 0) && id != 0 && !HasRow(rows, id)
    ensures var jobs := [Job("queued", 0, 0, 0), Job("build", id, 0, 0)];
      Count(jobs, rows) >= Want(jobs) && !AllJoined(jobs, rows)
  {
    hide HasRow;
    var jobs := [Job("queued", 0, 0, 0), Job("build", id, 0, 0)];
    var none := jobs[..1];
    assert none[..0] == [] && none[0] == jobs[0];
    assert Count(none[..0], rows) == 0 && Want(none[..0]) == 0;
    assert Count(none, rows) == 1 && Want(none) == 0;
    assert jobs[1].taskId == id;
  }

  /** No completion past a non-zero bound is stored. */
  lemma NoLateCompletion(jobs: seq<Job>, rows: seq<Row>, bound: Time)
    requires !IsZero(bound) && forall i :: 0 <= i < |jobs| ==> jobs[i].completedAt <= bound
    ensures forall i :: 0 <= i < |jobs| ==> Joined(jobs, rows, bound)[i].completedAt <= bound
  {
    hide FirstRow, Joined;
  }

  /** Serving a row again, anywhere, changes nothing. */
  lemma ServedTwice(jobs: seq<Job>, a: seq<Row>, b: seq<Row>, again: seq<Row>, bound: Time)
    requires forall i :: 0 <= i < |again| ==> HasRow(a, again[i].id)
    ensures Joined(jobs, a + again + b, bound) == Joined(jobs, a + b, bound)
  {
    hide Joined, FirstRow;
    forall i | 0 <= i < |jobs|
      ensures Joined(jobs, a + again + b, bound)[i] == Joined(jobs, a + b, bound)[i]
    {
      var id := jobs[i].taskId;
      FirstRowOf(a + again, b, id);
      FirstRowOf(a, again, id);
      FirstRowOf(a, b, id);
      if !HasRow(a, id) {
        NotServed(again, id, a);
      }
    }
  }

  lemma {:induction false} NotServed(again: seq<Row>, id: int, a: seq<Row>)
    requires !HasRow(a, id) && forall i :: 0 <= i < |again| ==> HasRow(a, again[i].id)
    ensures !HasRow(again, id)
  {
    if again != [] {
      NotServed(again[..|again| - 1], id, a);
    }
  }

  // ---------- What a row does to its job ----------

  /** rows[k] is the first row served for the task, or the last one listed. */
  ghost predicate IsFirst(rows: seq<Row>, k: nat, id: int) {
    k < |rows| && rows[k].id == id && forall j :: 0 <= j < k ==> rows[j].id != id
  }

  ghost predicate IsLast(rows: seq<Row>, k: nat, id: int) {
    k < |rows| && rows[k].id == id && forall j :: k < j < |rows| ==> rows[j].id != id
  }

  lemma {:induction false} FirstRowIs(rows: seq<Row>, k: nat, id: int)
    requires IsFirst(rows, k, id)
    ensures FirstRow(rows, id) == Some(rows[k])
  {
    var n := |rows| - 1;
    if k < n {
      FirstRowIs(rows[..n], k, id);
    } else {
      NoFirstRow(rows[..n], id);
    }
  }

  lemma {:induction false} NoFirstRow(rows: seq<Row>, id: int)
    requires forall j :: 0 <= j < |rows| ==> rows[j].id != id
    ensures FirstRow(rows, id) == None && LastRow(rows, id) == None
  {
    if rows != [] {
      NoFirstRow(rows[..|rows| - 1], id);
    }
  }

  lemma {:induction false} LastRowIs(rows: seq<Row>, k: nat, id: int)
    requires IsLast(rows, k, id)
    ensures LastRow(rows, id) == Some(rows[k])
  {
    var n := |rows| - 1;
    if k < n {
      LastRowIs(rows[..n], k, id);
    }
  }

  /** The walk gives a job the start of the row first served for its task, and that row's
      completion if it is a finished one no later than the bound; a job without a row, and
      everything else of one with a row, is left alone. */
  lemma WhatTheWalkStamps(jobs: seq<Job>, rows: seq<Row>, bound: Time, i: nat, k: nat)
    requires i < |jobs|
    ensures var job := Joined(jobs, rows, bound)[i];
      && (IsFirst(rows, k, jobs[i].taskId) ==>
          job == Job(jobs[i].name, jobs[i].taskId, rows[k].runStartedAt,
                     if rows[k].terminal && (bound == 0 || rows[k].updatedAt <= bound) then rows[k].updatedAt else jobs[i].completedAt))
      && ((forall j :: 0 <= j < |rows| ==> rows[j].id != jobs[i].taskId) ==> job == jobs[i])
  {
    if IsFirst(rows, k, jobs[i].taskId) { FirstRowIs(rows, k, jobs[i].taskId); }
    if forall j :: 0 <= j < |rows| ==> rows[j].id != jobs[i].taskId { NoFirstRow(rows, jobs[i].taskId); }
  }

  /** One join does the same with the row listed last. */
  lemma WhatAJoinStamps(jobs: seq<Job>, rows: seq<Row>, bound: Time, i: nat, k: nat)
    requires i < |jobs|
    ensures var job := JoinedLast(jobs, rows, bound)[i];
      && (IsLast(rows, k, jobs[i].taskId) ==>
          job == Job(jobs[i].name, jobs[i].taskId, rows[k].runStartedAt,
                     if rows[k].terminal && (bound == 0 || rows[k].updatedAt <= bound) then rows[k].updatedAt else jobs[i].completedAt))
      && ((forall j :: 0 <= j < |rows| ==> rows[j].id != jobs[i].taskId) ==> job == jobs[i])
  {
    if IsLast(rows, k, jobs[i].taskId) { LastRowIs(rows, k, jobs[i].taskId); }
    if forall j :: 0 <= j < |rows| ==> rows[j].id != jobs[i].taskId { NoFirstRow(rows, jobs[i].taskId); }
  }

  /** The two counts of a join: the jobs some row is for, and those of them whose row finished
      past a bound there is. */
  lemma {:induction false} JoinCounts(jobs: seq<Job>, rows: seq<Row>, bound: Time, matched: set<nat>, edited: set<nat>)
    requires forall i :: i in matched <==> 0 <= i < |jobs| && exists k: nat :: IsLast(rows, k, jobs[i].taskId)
    requires forall i :: i in edited <==>
      0 <= i < |jobs| && exists k: nat :: IsLast(rows, k, jobs[i].taskId) && rows[k].terminal && 0 < bound < rows[k].updatedAt
    ensures Matched(jobs, rows) == |matched| && Edited(jobs, rows, bound) == |edited|
  {
    if jobs == [] {
      assert matched == {} && edited == {};
    } else {
      var n: nat := |jobs| - 1;
      JoinCounts(jobs[..n], rows, bound, matched - {n}, edited - {n});
      LastRowOrNone(rows, jobs[n].taskId);
      OneMember(matched, n);
      OneMember(edited, n);
      hide LastRow, IsLast;
      if k: nat :| IsLast(rows, k, jobs[n].taskId) {
        LastRowIs(rows, k, jobs[n].taskId);
      }
    }
  }

  lemma OneMember(s: set<nat>, n: nat)
    ensures |s| == |s - {n}| + if n in s then 1 else 0
  {
    if n !in s { assert s - {n} == s; }
  }

  lemma {:induction false} LastRowOrNone(rows: seq<Row>, id: int)
    ensures LastRow(rows, id).Some? ==> exists k: nat :: IsLast(rows, k, id) && LastRow(rows, id) == Some(rows[k])
  {
    if rows != [] {
      var n: nat := |rows| - 1;
      LastRowOrNone(rows[..n], id);
      if rows[n].id == id {
        assert IsLast(rows, n, id);
      } else if LastRow(rows, id).Some? {
        var k: nat :| IsLast(rows[..n], k, id) && LastRow(rows[..n], id) == Some(rows[k]);
        assert IsLast(rows, k, id);
      }
    }
  }

  /** Which completions of a finished row a run believes: up to a minute after it stopped; while
      it has not, up to twelve hours after it started, or was created; all of them if it
      carries no time. */
  lemma WhichCompletionsAreBelieved(run: Run, job: Job, row: Row)
    requires row.terminal && row.updatedAt != job.completedAt
    ensures Stamp(job, Some(row), CompletionBound(run)).completedAt == row.updatedAt <==>
      if run.stoppedAt > 0 then row.updatedAt <= run.stoppedAt + 60_000_000_000
      else if run.startedAt > 0 then row.updatedAt <= run.startedAt + 12 * 3600 * 1_000_000_000
      else run.createdAt > 0 ==> row.updatedAt <= run.createdAt + 12 * 3600 * 1_000_000_000
  {
  }
}
