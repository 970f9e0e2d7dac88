/**
 * The board (components/Board.tsx): the four status columns, the grouping of
 * the cached jobs into them, and the drag handlers that turn a drop into at
 * most one `moveJob` call. The drag library is reduced to the
 * `(active.id, over.id)` pair it hands to the handlers.
 */
module Board {
  import opened Wrappers
  import opened JobStore

  /** A board column: its id is a job status. */
  datatype Column = Column(id: string, title: string)

  /** `columns`, in display order. */
  const Columns: seq<Column> := [
    Column(Applied, "Applied"),
    Column(InProgress, "In Progress"),
    Column(Accepted, "Accepted"),
    Column(Rejected, "Rejected")
  ]

  /** The keys of the grouping record. */
  const ColumnIds: set<string> := {Applied, InProgress, Accepted, Rejected}

  /** `columns.some(col => col.id === s)`. */
  predicate IsColumnId(s: string): (b: bool)
    ensures b <==> IsJobStatus(s)
  {
    assert Columns[0].id == Applied && Columns[1].id == InProgress;
    assert Columns[2].id == Accepted && Columns[3].id == Rejected;
    exists i :: 0 <= i < |Columns| && Columns[i].id == s
  }

  /** A move the board asks the store for. */
  datatype Move = Move(id: string, newStatus: string)

  /** What a drag end does: the move it issues, if any, and whether it
      clears `activeJob`. */
  datatype DragEndEffect = DragEndEffect(move: Option<Move>, clearsActive: bool)

  // ---------------------------------------------------------------------------
  // Lookup and grouping
  // ---------------------------------------------------------------------------

  /** `jobs.find(j => j.id === id)`: the first job with that id. */
  function FindById(jobs: seq<Job>, id: string): (r: Option<Job>)
    ensures r.None? <==> !HasId(jobs, id)
    ensures r.Some? ==> r.value.id == id
    ensures r.Some? ==> exists i :: 0 <= i < |jobs| && jobs[i] == r.value && !HasId(jobs[..i], id)
  {
    if jobs == [] then None
    else if jobs[0].id == id then
      assert jobs[..0] == [];
      Some(jobs[0])
    else
      var r := FindById(jobs[1..], id);
      assert HasId(jobs, id) <==> HasId(jobs[1..], id) by {
        if HasId(jobs, id) {
          var i :| 0 <= i < |jobs| && jobs[i].id == id;
          assert jobs[1..][i - 1] == jobs[i];
        }
        if HasId(jobs[1..], id) {
          var i :| 0 <= i < |jobs[1..]| && jobs[1..][i].id == id;
          assert jobs[i + 1] == jobs[1..][i];
        }
      }
      if r.Some? then
        var i :| 0 <= i < |jobs[1..]| && jobs[1..][i] == r.value && !HasId(jobs[1..][..i], id);
        assert jobs[i + 1] == r.value;
        var prefix := jobs[..i + 1];
        assert !HasId(prefix, id) by {
          forall k | 0 <= k < |prefix| ensures prefix[k].id != id {
            if k > 0 {
              assert prefix[k] == jobs[1..][..i][k - 1];
            }
          }
        }
        r
      else
        r
  }

  /** Bucket `status` of the grouping: the jobs with that status, in cache
      order (built from the back, as `push` builds it). */
  function WithStatus(jobs: seq<Job>, status: string): (r: seq<Job>)
    ensures |r| <= |jobs|
    ensures forall i :: 0 <= i < |r| ==> r[i].status == status
  {
    if jobs == [] then []
    else
      var last := jobs[|jobs| - 1];
      WithStatus(jobs[..|jobs| - 1], status) + (if last.status == status then [last] else [])
  }

  /** The number of jobs whose status is one of the four. */
  function ValidStatusCount(jobs: seq<Job>): (n: nat)
    ensures n <= |jobs|
  {
    if jobs == [] then 0
    else ValidStatusCount(jobs[..|jobs| - 1]) + (if IsJobStatus(jobs[|jobs| - 1].status) then 1 else 0)
  }

  /** `jobsByColumn`: one bucket per column, filled by a single pass that
      pushes each job onto the bucket of its status when there is one. */
  method JobsByColumn(jobs: seq<Job>) returns (grouped: map<string, seq<Job>>)
    ensures grouped.Keys == ColumnIds
    ensures forall s :: s in grouped ==> grouped[s] == WithStatus(jobs, s)
  {
    grouped := map[Applied := [], InProgress := [], Accepted := [], Rejected := []];
    var i := 0;
    while i < |jobs|
      invariant 0 <= i <= |jobs|
      invariant grouped.Keys == ColumnIds
      invariant forall s :: s in grouped ==> grouped[s] == WithStatus(jobs[..i], s)
    {
      var job := jobs[i];
      assert jobs[..i + 1][..i] == jobs[..i];
      if job.status in grouped {
        grouped := grouped[job.status := grouped[job.status] + [job]];
      }
      i := i + 1;
    }
    assert jobs[..i] == jobs;
  }

  // ---------------------------------------------------------------------------
  // Drag end
  // ---------------------------------------------------------------------------

  /** The decision `handleDragEnd` takes: no target clears `activeJob`; an
      unknown dragged job returns at once; otherwise a column id is tried
      first, then a job id, and a move is issued only when the status
      would change. */
  function DragEndDecision(jobs: seq<Job>, activeId: string, overId: Option<string>): (e: DragEndEffect)
    ensures overId.None? ==> e == DragEndEffect(None, true)
    ensures overId.Some? ==> (e.clearsActive <==> HasId(jobs, activeId))
    ensures e.move.Some? ==>
      && e.move.value.id == activeId
      && FindById(jobs, activeId).Some?
      && FindById(jobs, activeId).value.status != e.move.value.newStatus
  {
    match overId
    case None => DragEndEffect(None, true)
    case Some(over) =>
      match FindById(jobs, activeId)
      case None => DragEndEffect(None, false)
      case Some(active) =>
        if IsColumnId(over) then
          DragEndEffect(if active.status != over then Some(Move(activeId, over)) else None, true)
        else
          match FindById(jobs, over)
          case None => DragEndEffect(None, true)
          case Some(target) =>
            DragEndEffect(if active.status != target.status then Some(Move(activeId, target.status)) else None, true)
  }

  // ---------------------------------------------------------------------------
  // Lemmas
  // ---------------------------------------------------------------------------

  /** The column ids are exactly the four job statuses. */
  lemma ColumnIdsAreStatuses(s: string)
    ensures IsColumnId(s) <==> IsJobStatus(s)
    ensures IsColumnId(s) <==> s in ColumnIds
  {
  }

  /** A job is in bucket `status` exactly when it is cached with that status. */
  lemma {:induction false} WithStatusMembers(jobs: seq<Job>, status: string, j: Job)
    ensures j in WithStatus(jobs, status) <==> j in jobs && j.status == status
  {
    if jobs != [] {
      var init := jobs[..|jobs| - 1];
      WithStatusMembers(init, status, j);
      assert jobs == init + [jobs[|jobs| - 1]];
    }
  }

  /** Grouping distributes over concatenation, so each bucket keeps cache
      order. */
  lemma {:induction false} WithStatusAppend(xs: seq<Job>, ys: seq<Job>, status: string)
    ensures WithStatus(xs + ys, status) == WithStatus(xs, status) + WithStatus(ys, status)
  {
    if ys == [] {
      assert xs + ys == xs;
    } else {
      var init := ys[..|ys| - 1];
      assert (xs + ys)[..|xs + ys| - 1] == xs + init;
      WithStatusAppend(xs, init, status);
    }
  }

  /** A job with a valid status is in its own bucket and in no other; a job
      with any other status is in no bucket. */
  lemma ExactlyOneBucket(jobs: seq<Job>, j: Job, s: string)
    requires j in jobs && s in ColumnIds
    ensures j in WithStatus(jobs, s) <==> s == j.status
  {
  }

  /** The four bucket sizes add up to the number of valid-status jobs. */
  lemma {:induction false} BucketSizesSum(jobs: seq<Job>)
    ensures |WithStatus(jobs, Applied)| + |WithStatus(jobs, InProgress)|
          + |WithStatus(jobs, Accepted)| + |WithStatus(jobs, Rejected)|
         == ValidStatusCount(jobs)
  {
    if jobs != [] {
      BucketSizesSum(jobs[..|jobs| - 1]);
    }
  }

  /** A drop onto a column moves the job to that column exactly when it is
      not already there. */
  lemma DropOnColumn(jobs: seq<Job>, activeId: string, column: string)
    requires HasId(jobs, activeId) && IsColumnId(column)
    ensures var e := DragEndDecision(jobs, activeId, Some(column));
      && e.clearsActive
      && (e.move.Some? <==> FindById(jobs, activeId).value.status != column)
      && (e.move.Some? ==> e.move.value == Move(activeId, column))
  {
  }

  /** A drop onto another job (whose id is no column id) moves the dragged
      job to that job's status exactly when the two statuses differ; an id
      that matches no job moves nothing. */
  lemma DropOnJob(jobs: seq<Job>, activeId: string, overId: string)
    requires HasId(jobs, activeId) && !IsColumnId(overId)
    ensures var e := DragEndDecision(jobs, activeId, Some(overId));
      && e.clearsActive
      && (!HasId(jobs, overId) ==> e.move.None?)
      && (HasId(jobs, overId) ==>
            var target := FindById(jobs, overId).value;
            && (e.move.Some? <==> FindById(jobs, activeId).value.status != target.status)
            && (e.move.Some? ==> e.move.value == Move(activeId, target.status)))
  {
  }

  /** An id that is both a column id and a job id is read as the column. */
  lemma ColumnWinsOverJob(jobs: seq<Job>, activeId: string, overId: string)
    requires HasId(jobs, activeId) && HasId(jobs, overId) && IsColumnId(overId)
    ensures DragEndDecision(jobs, activeId, Some(overId)).move
         == if FindById(jobs, activeId).value.status != overId then Some(Move(activeId, overId)) else None
  {
  }

  /** With unique ids, a successful move issued by a drop takes the dragged
      job out of its old bucket and puts it, moved, into the new one. */
  lemma DropMovesBetweenBuckets(jobs: seq<Job>, activeId: string, overId: Option<string>, now: int)
    requires DragEndDecision(jobs, activeId, overId).move.Some?
    ensures var m := DragEndDecision(jobs, activeId, overId).move.value;
      var active := FindById(jobs, activeId).value;
      var after := MoveMatching(jobs, activeId, m.newStatus, now);
      && Moved(active, m.newStatus, now) in WithStatus(after, m.newStatus)
      && forall j :: j in WithStatus(after, active.status) ==> j.id != activeId
  {
    var m := DragEndDecision(jobs, activeId, overId).move.value;
    var active := FindById(jobs, activeId).value;
    var after := MoveMatching(jobs, activeId, m.newStatus, now);
    var i :| 0 <= i < |jobs| && jobs[i] == active;
    assert after[i] == Moved(active, m.newStatus, now);
    WithStatusMembers(after, m.newStatus, after[i]);
    forall j | j in WithStatus(after, active.status) ensures j.id != activeId {
      WithStatusMembers(after, active.status, j);
    }
  }

  // ---------------------------------------------------------------------------
  // The board's drag state
  // ---------------------------------------------------------------------------

  /** The board component's `activeJob` state, next to the store it reads
      and calls. */
  class BoardState {
    const store: JobState
    var activeJob: Option<Job>

    constructor (store: JobState)
      ensures this.store == store && activeJob == None
    {
      this.store := store;
      activeJob := None;
    }

    /** `handleDragStart`: remember the dragged job if it is cached. */
    method HandleDragStart(activeId: string)
      modifies this
      ensures activeJob == if HasId(store.jobs, activeId) then FindById(store.jobs, activeId) else old(activeJob)
    {
      var job := FindById(store.jobs, activeId);
      if job.Some? {
        activeJob := job;
      }
    }

    /** `handleDragEnd`: the store receives the move `DragEndDecision`
        chooses, if any, and nothing else; `ok` is the outcome of that move's
        remote call. Returns the payload the move sent. */
    method HandleDragEnd(activeId: string, overId: Option<string>, now: int, nowIso: string, ok: bool)
      returns (sent: Option<Payload>)
      modifies this, store
      ensures var e := DragEndDecision(old(store.jobs), activeId, overId);
        && activeJob == (if e.clearsActive then None else old(activeJob))
        && store.loading == old(store.loading)
        && (e.move.None? ==> sent == None && store.jobs == old(store.jobs))
        && (e.move.Some? ==>
              && sent == Some(MovePayload(e.move.value.newStatus, nowIso))
              && store.jobs == if ok then MoveMatching(old(store.jobs), activeId, e.move.value.newStatus, now)
                               else old(store.jobs))
    {
      sent := None;
      if overId.None? {
        activeJob := None;
        return;
      }
      var over := overId.value;
      var active := FindById(store.jobs, activeId);
      if active.None? {
        return;
      }
      if IsColumnId(over) {
        if active.value.status != over {
          var payload := store.MoveJob(activeId, over, now, nowIso, ok);
          sent := Some(payload);
        }
      } else {
        var target := FindById(store.jobs, over);
        if target.Some? && active.value.status != target.value.status {
          var payload := store.MoveJob(activeId, target.value.status, now, nowIso, ok);
          sent := Some(payload);
        }
      }
      activeJob := None;
    }
  }
}
