/**
 * The client-side job cache (store/useJobStore.ts): a list of jobs and a
 * `loading` flag, changed by five actions. Every mutating action changes the
 * list at once (optimistic update) and then makes one remote call; the
 * outcome of that call is a parameter here. The list transforms the actions
 * use are pure functions, proved about by the lemmas below; the actions
 * themselves are the methods of class JobState.
 */
module JobStore {
  import opened Wrappers

  // ---------------------------------------------------------------------------
  // Data model
  // ---------------------------------------------------------------------------

  /** The four values of the `JobStatus` union; also the board's column ids. */
  const Applied: string := "Applied"
  const InProgress: string := "In Progress"
  const Accepted: string := "Accepted"
  const Rejected: string := "Rejected"

  /** Statuses read back from the database are not checked against the union,
      so a job's status is a string and this predicate says when it is valid. */
  predicate IsJobStatus(s: string) {
    s == Applied || s == InProgress || s == Accepted || s == Rejected
  }

  /** A cached job. Timestamps are milliseconds since the epoch. */
  datatype Job = Job(
    id: string,
    title: string,
    company: string,
    status: string,
    priority: string,
    description: Option<string>,
    location: Option<string>,
    salary: Option<string>,
    url: Option<string>,
    notes: Option<string>,
    createdAt: int,
    updatedAt: int,
    userId: Option<string>)

  /** `Partial<Job>`: every key may be absent (`None`). */
  datatype JobPatch = JobPatch(
    id: Option<string>,
    title: Option<string>,
    company: Option<string>,
    status: Option<string>,
    priority: Option<string>,
    description: Option<string>,
    location: Option<string>,
    salary: Option<string>,
    url: Option<string>,
    notes: Option<string>,
    createdAt: Option<int>,
    updatedAt: Option<int>,
    userId: Option<string>)

  /** The patch with no key at all. */
  const NoChanges: JobPatch :=
    JobPatch(None, None, None, None, None, None, None, None, None, None, None, None, None)

  /** The object handed to `addJob`: the form fields, plus the `createdAt`
      key the form sends along and `addJob` overrides. */
  datatype JobDraft = JobDraft(
    title: string,
    company: string,
    status: string,
    priority: string,
    description: Option<string>,
    location: Option<string>,
    salary: Option<string>,
    url: Option<string>,
    notes: Option<string>,
    createdAt: Option<int>)

  /** A row of the remote `jobs` table, in its snake_case wire form; the two
      timestamps are ISO-8601 strings. */
  datatype Row = Row(
    id: string,
    title: string,
    company: string,
    status: string,
    priority: string,
    description: Option<string>,
    location: Option<string>,
    salary: Option<string>,
    url: Option<string>,
    notes: Option<string>,
    created_at: string,
    updated_at: string,
    user_id: Option<string>)

  /** The outcome of the remote `select`. */
  datatype FetchResponse = FetchFailed | Fetched(rows: seq<Row>)

  /** The columns an update payload may set (`updated_at`, `title`, ...);
      a payload holds no other key. */
  datatype Field =
    | UpdatedAt | Title | Company | Status | Priority
    | Description | Location | Salary | Url | Notes

  /** An update payload: column to value. */
  type Payload = map<Field, string>

  predicate HasId(jobs: seq<Job>, id: string) {
    exists i :: 0 <= i < |jobs| && jobs[i].id == id
  }

  /** No two cached jobs share an id. */
  predicate UniqueIds(jobs: seq<Job>) {
    forall i, k :: 0 <= i < k < |jobs| ==> jobs[i].id != jobs[k].id
  }

  /** No two fetched rows share an id (the table's primary key). */
  predicate UniqueRowIds(rows: seq<Row>) {
    forall i, k :: 0 <= i < k < |rows| ==> rows[i].id != rows[k].id
  }

  /** JavaScript truthiness of an optional string. */
  predicate Truthy(o: Option<string>) {
    o.Some? && o.value != ""
  }

  // ---------------------------------------------------------------------------
  // fetchJobs: row mapping
  // ---------------------------------------------------------------------------

  /** One row mapped to a cached job; `toMillis` stands for
      `new Date(s).getTime()`. */
  function MapRow(row: Row, toMillis: string -> int): (j: Job)
    ensures j.id == row.id && j.status == row.status
    ensures j.createdAt == toMillis(row.created_at) && j.updatedAt == toMillis(row.updated_at)
  {
    Job(row.id, row.title, row.company, row.status, row.priority,
        row.description, row.location, row.salary, row.url, row.notes,
        toMillis(row.created_at), toMillis(row.updated_at), row.user_id)
  }

  /** `data.map(...)`: the rows mapped one to one, in the order received. */
  function MapRows(rows: seq<Row>, toMillis: string -> int): (jobs: seq<Job>)
    ensures |jobs| == |rows|
    ensures forall i :: 0 <= i < |rows| ==> jobs[i] == MapRow(rows[i], toMillis)
  {
    if rows == [] then [] else [MapRow(rows[0], toMillis)] + MapRows(rows[1..], toMillis)
  }

  // ---------------------------------------------------------------------------
  // addJob: the optimistic job and the insert row
  // ---------------------------------------------------------------------------

  /** `{...jobData, id: tempId, createdAt: now, updatedAt: now, ...}`: the
      draft's own `createdAt` is overridden and no owner is set yet. */
  function NewJob(d: JobDraft, tempId: string, now: int): (j: Job)
    ensures j.id == tempId && j.createdAt == now && j.updatedAt == now
    ensures j.userId == None
  {
    Job(tempId, d.title, d.company, d.status, d.priority,
        d.description, d.location, d.salary, d.url, d.notes, now, now, None)
  }

  /** The row `addJob` inserts for signed-in user `userId`. */
  function InsertRow(d: JobDraft, tempId: string, userId: string, nowIso: string): (r: Row)
    ensures r.id == tempId && r.user_id == Some(userId)
    ensures r.created_at == nowIso && r.updated_at == nowIso
  {
    Row(tempId, d.title, d.company, d.status, d.priority,
        d.description, d.location, d.salary, d.url, d.notes, nowIso, nowIso, Some(userId))
  }

  // ---------------------------------------------------------------------------
  // The list transforms
  // ---------------------------------------------------------------------------

  /** `jobs.map(job => job.id === id ? f(job) : job)`. */
  function MapMatching(jobs: seq<Job>, id: string, f: Job -> Job): (r: seq<Job>)
    ensures |r| == |jobs|
    ensures forall i :: 0 <= i < |jobs| && jobs[i].id != id ==> r[i] == jobs[i]
    ensures forall i :: 0 <= i < |jobs| && jobs[i].id == id ==> r[i] == f(jobs[i])
  {
    if jobs == [] then []
    else [if jobs[0].id == id then f(jobs[0]) else jobs[0]] + MapMatching(jobs[1..], id, f)
  }

  /** `jobs.filter(job => job.id !== id)`. */
  function WithoutId(jobs: seq<Job>, id: string): (r: seq<Job>)
    ensures |r| <= |jobs|
    ensures forall i :: 0 <= i < |r| ==> r[i].id != id
  {
    if jobs == [] then []
    else if jobs[0].id == id then WithoutId(jobs[1..], id)
    else [jobs[0]] + WithoutId(jobs[1..], id)
  }

  /** `{...job, ...updates, updatedAt: now}`. */
  function Merge(job: Job, u: JobPatch, now: int): (r: Job)
    ensures r.updatedAt == now
    ensures r.id == (if u.id.Some? then u.id.value else job.id)
    ensures r.createdAt == (if u.createdAt.Some? then u.createdAt.value else job.createdAt)
    ensures r.userId == (if u.userId.Some? then u.userId else job.userId)
    ensures forall f :: f != UpdatedAt ==>
      FieldOf(r, f) == (if PatchField(u, f).Some? then PatchField(u, f) else FieldOf(job, f))
  {
    Job(u.id.GetOr(job.id),
        u.title.GetOr(job.title),
        u.company.GetOr(job.company),
        u.status.GetOr(job.status),
        u.priority.GetOr(job.priority),
        if u.description.Some? then u.description else job.description,
        if u.location.Some? then u.location else job.location,
        if u.salary.Some? then u.salary else job.salary,
        if u.url.Some? then u.url else job.url,
        if u.notes.Some? then u.notes else job.notes,
        u.createdAt.GetOr(job.createdAt),
        now,
        if u.userId.Some? then u.userId else job.userId)
  }

  /** `{...job, status: newStatus, updatedAt: now}`. */
  function Moved(job: Job, newStatus: string, now: int): (r: Job)
    ensures r.status == newStatus && r.updatedAt == now
  {
    job.(status := newStatus, updatedAt := now)
  }

  /** The optimistic list of `updateJob(id, u)`. */
  function UpdateMatching(jobs: seq<Job>, id: string, u: JobPatch, now: int): (r: seq<Job>)
    ensures |r| == |jobs|
    ensures forall i :: 0 <= i < |jobs| && jobs[i].id != id ==> r[i] == jobs[i]
    ensures forall i :: 0 <= i < |jobs| && jobs[i].id == id ==> r[i] == Merge(jobs[i], u, now)
  {
    MapMatching(jobs, id, j => Merge(j, u, now))
  }

  /** The optimistic list of `moveJob(id, newStatus)`. */
  function MoveMatching(jobs: seq<Job>, id: string, newStatus: string, now: int): (r: seq<Job>)
    ensures |r| == |jobs|
    ensures forall i :: 0 <= i < |jobs| && jobs[i].id != id ==> r[i] == jobs[i]
    ensures forall i :: 0 <= i < |jobs| && jobs[i].id == id ==> r[i] == Moved(jobs[i], newStatus, now)
  {
    MapMatching(jobs, id, j => Moved(j, newStatus, now))
  }

  // ---------------------------------------------------------------------------
  // The remote update payloads
  // ---------------------------------------------------------------------------

  /** Every key of an update payload. */
  const AllFields: set<Field> :=
    {UpdatedAt, Title, Company, Status, Priority, Description, Location, Salary, Url, Notes}

  /** What `updateJob` sends for one column, if anything: `updated_at`
      always; title, company, status and priority when truthy; the five
      optional texts when not undefined. */
  function SentValue(u: JobPatch, nowIso: string, f: Field): Option<string> {
    match f
    case UpdatedAt => Some(nowIso)
    case Title => if Truthy(u.title) then u.title else None
    case Company => if Truthy(u.company) then u.company else None
    case Status => if Truthy(u.status) then u.status else None
    case Priority => if Truthy(u.priority) then u.priority else None
    case Description => u.description
    case Location => u.location
    case Salary => u.salary
    case Url => u.url
    case Notes => u.notes
  }

  /** `dbUpdates`, built key by key. */
  function BuildPayload(u: JobPatch, nowIso: string): (p: Payload)
    ensures UpdatedAt in p && p[UpdatedAt] == nowIso
    ensures (Title in p <==> Truthy(u.title)) && (Title in p ==> p[Title] == u.title.value)
    ensures (Company in p <==> Truthy(u.company)) && (Company in p ==> p[Company] == u.company.value)
    ensures (Status in p <==> Truthy(u.status)) && (Status in p ==> p[Status] == u.status.value)
    ensures (Priority in p <==> Truthy(u.priority)) && (Priority in p ==> p[Priority] == u.priority.value)
    ensures (Description in p <==> u.description.Some?) && (Description in p ==> p[Description] == u.description.value)
    ensures (Location in p <==> u.location.Some?) && (Location in p ==> p[Location] == u.location.value)
    ensures (Salary in p <==> u.salary.Some?) && (Salary in p ==> p[Salary] == u.salary.value)
    ensures (Url in p <==> u.url.Some?) && (Url in p ==> p[Url] == u.url.value)
    ensures (Notes in p <==> u.notes.Some?) && (Notes in p ==> p[Notes] == u.notes.value)
  {
    map f | f in AllFields && SentValue(u, nowIso, f).Some? :: SentValue(u, nowIso, f).value
  }

  /** The payload of `moveJob`: exactly status and `updated_at`. */
  function MovePayload(newStatus: string, nowIso: string): (p: Payload)
    ensures p.Keys == {Status, UpdatedAt}
    ensures p[Status] == newStatus && p[UpdatedAt] == nowIso
  {
    map[Status := newStatus, UpdatedAt := nowIso]
  }

  /** The value a cached job shows for a payload column (none for
      `updated_at`, which the cache keeps as a number). */
  function FieldOf(j: Job, f: Field): Option<string> {
    match f
    case UpdatedAt => None
    case Title => Some(j.title)
    case Company => Some(j.company)
    case Status => Some(j.status)
    case Priority => Some(j.priority)
    case Description => j.description
    case Location => j.location
    case Salary => j.salary
    case Url => j.url
    case Notes => j.notes
  }

  /** The value a patch carries for a payload column, if the key is present
      (none for `updated_at`, which `updateJob` sets itself). */
  function PatchField(u: JobPatch, f: Field): Option<string> {
    match f
    case UpdatedAt => None
    case Title => u.title
    case Company => u.company
    case Status => u.status
    case Priority => u.priority
    case Description => u.description
    case Location => u.location
    case Salary => u.salary
    case Url => u.url
    case Notes => u.notes
  }

  /** The patch that only sets `status`. */
  function StatusOnly(newStatus: string): (u: JobPatch)
    ensures u.status == Some(newStatus)
  {
    NoChanges.(status := Some(newStatus))
  }

  // ---------------------------------------------------------------------------
  // Lemmas about the transforms
  // ---------------------------------------------------------------------------

  /** Filtering distributes over concatenation, so it keeps the survivors'
      order. */
  lemma {:induction false} WithoutIdAppend(xs: seq<Job>, ys: seq<Job>, id: string)
    ensures WithoutId(xs + ys, id) == WithoutId(xs, id) + WithoutId(ys, id)
  {
    if xs == [] {
      assert xs + ys == ys;
    } else {
      assert (xs + ys)[0] == xs[0];
      assert (xs + ys)[1..] == xs[1..] + ys;
      WithoutIdAppend(xs[1..], ys, id);
      if xs[0].id == id {
        assert WithoutId(xs, id) == WithoutId(xs[1..], id);
      } else {
        assert WithoutId(xs, id) == [xs[0]] + WithoutId(xs[1..], id);
      }
    }
  }

  /** A job survives `deleteJob(id)` exactly when it was cached and its id
      differs. */
  lemma {:induction false} WithoutIdMembers(jobs: seq<Job>, id: string, j: Job)
    ensures j in WithoutId(jobs, id) <==> j in jobs && j.id != id
  {
    if jobs != [] {
      WithoutIdMembers(jobs[1..], id, j);
      assert j in jobs <==> j == jobs[0] || j in jobs[1..];
    }
  }

  /** Removing an id that no job has leaves the list as it was. */
  lemma {:induction false} WithoutAbsentId(jobs: seq<Job>, id: string)
    requires !HasId(jobs, id)
    ensures WithoutId(jobs, id) == jobs
  {
    if jobs != [] {
      assert jobs[0].id != id;
      assert !HasId(jobs[1..], id) by {
        forall i | 0 <= i < |jobs[1..]| ensures jobs[1..][i].id != id {
          assert jobs[1..][i] == jobs[i + 1];
        }
      }
      WithoutAbsentId(jobs[1..], id);
    }
  }

  /** The rollback of a failed `addJob` removes only the job it added: with a
      fresh id, jobs before and after it (also those added in the meantime)
      stay, in order. */
  lemma RollbackAddKeepsOthers(xs: seq<Job>, added: Job, ys: seq<Job>)
    requires !HasId(xs, added.id) && !HasId(ys, added.id)
    ensures WithoutId(xs + [added] + ys, added.id) == xs + ys
  {
    var id := added.id;
    WithoutIdAppend(xs + [added], ys, id);
    WithoutIdAppend(xs, [added], id);
    WithoutAbsentId(xs, id);
    WithoutAbsentId(ys, id);
    assert WithoutId([added], id) == WithoutId([added][1..], id) == [];
  }

  /** With unique ids, deleting an id that is present shortens the list by
      exactly one. */
  lemma {:induction false} DeleteRemovesOne(jobs: seq<Job>, id: string)
    requires UniqueIds(jobs) && HasId(jobs, id)
    ensures |WithoutId(jobs, id)| == |jobs| - 1
  {
    if jobs[0].id == id {
      assert !HasId(jobs[1..], id) by {
        forall i | 0 <= i < |jobs[1..]| ensures jobs[1..][i].id != id {
          assert jobs[1..][i] == jobs[i + 1];
        }
      }
      WithoutAbsentId(jobs[1..], id);
    } else {
      var i :| 0 <= i < |jobs| && jobs[i].id == id;
      assert jobs[1..][i - 1].id == id;
      DeleteRemovesOne(jobs[1..], id);
    }
  }

  /** Fetching rows with distinct ids gives a cache with distinct ids. */
  lemma FetchKeepsUniqueIds(rows: seq<Row>, toMillis: string -> int)
    requires UniqueRowIds(rows)
    ensures UniqueIds(MapRows(rows, toMillis))
  {
  }

  /** Deleting keeps ids distinct. */
  lemma {:induction false} DeleteKeepsUniqueIds(jobs: seq<Job>, id: string)
    requires UniqueIds(jobs)
    ensures UniqueIds(WithoutId(jobs, id))
  {
    if jobs != [] {
      var tail := jobs[1..];
      assert UniqueIds(tail) by {
        forall i, k | 0 <= i < k < |tail| ensures tail[i].id != tail[k].id {
          assert tail[i] == jobs[i + 1] && tail[k] == jobs[k + 1];
        }
      }
      DeleteKeepsUniqueIds(tail, id);
      if jobs[0].id != id {
        var rest := WithoutId(tail, id);
        forall k | 0 <= k < |rest| ensures rest[k].id != jobs[0].id {
          WithoutIdMembers(tail, id, rest[k]);
          var m :| 0 <= m < |tail| && tail[m] == rest[k];
          assert tail[m] == jobs[m + 1];
        }
        assert WithoutId(jobs, id) == [jobs[0]] + rest;
      }
    }
  }

  /** An update that does not set `id` keeps ids distinct. */
  lemma UpdateKeepsUniqueIds(jobs: seq<Job>, id: string, u: JobPatch, now: int)
    requires UniqueIds(jobs) && u.id.None?
    ensures UniqueIds(UpdateMatching(jobs, id, u, now))
  {
  }

  /** A move keeps ids distinct. */
  lemma MoveKeepsUniqueIds(jobs: seq<Job>, id: string, newStatus: string, now: int)
    requires UniqueIds(jobs)
    ensures UniqueIds(MoveMatching(jobs, id, newStatus, now))
  {
  }

  /** `updateJob` and `moveJob` on an id not in the cache change nothing. */
  lemma MapMatchingAbsent(jobs: seq<Job>, id: string, f: Job -> Job)
    requires !HasId(jobs, id)
    ensures MapMatching(jobs, id, f) == jobs
  {
  }

  /** `moveJob` keeps length, order and every other job, and of the matching
      job changes only `status` and `updatedAt`. */
  lemma MoveChangesOnlyStatus(jobs: seq<Job>, id: string, newStatus: string, now: int, i: int)
    requires 0 <= i < |jobs|
    ensures |MoveMatching(jobs, id, newStatus, now)| == |jobs|
    ensures jobs[i].id != id ==> MoveMatching(jobs, id, newStatus, now)[i] == jobs[i]
    ensures jobs[i].id == id ==>
      MoveMatching(jobs, id, newStatus, now)[i] == jobs[i].(status := newStatus, updatedAt := now)
  {
  }

  /** `updateJob` merges the present keys into the matching job, keeps every
      absent key, and stamps `updatedAt`: every column of the result is the
      patch's value when the key is present and the job's own otherwise. */
  lemma UpdateMergesPresentKeys(jobs: seq<Job>, id: string, u: JobPatch, now: int, i: int)
    requires 0 <= i < |jobs| && jobs[i].id == id
    ensures var r := UpdateMatching(jobs, id, u, now)[i];
      && r.updatedAt == now
      && r.id == (if u.id.Some? then u.id.value else id)
      && r.createdAt == (if u.createdAt.Some? then u.createdAt.value else jobs[i].createdAt)
      && r.userId == (if u.userId.Some? then u.userId else jobs[i].userId)
      && forall f :: f != UpdatedAt ==>
           FieldOf(r, f) == (if PatchField(u, f).Some? then PatchField(u, f) else FieldOf(jobs[i], f))
  {
  }

  /** Applying the same update twice gives the same list as applying it once. */
  lemma UpdateIdempotent(jobs: seq<Job>, id: string, u: JobPatch, now: int)
    ensures UpdateMatching(UpdateMatching(jobs, id, u, now), id, u, now)
         == UpdateMatching(jobs, id, u, now)
  {
  }

  /** Every column the remote update writes carries the value the cache now
      shows for the matching job: cache and table agree on the sent columns. */
  lemma PayloadAgreesWithMerge(job: Job, u: JobPatch, now: int, nowIso: string, key: Field)
    requires key in BuildPayload(u, nowIso) && key != UpdatedAt
    ensures FieldOf(Merge(job, u, now), key) == Some(BuildPayload(u, nowIso)[key])
  {
  }

  /** A title, company, status or priority set to the empty string changes
      the cache but is not sent: there cache and table disagree. */
  lemma FalsyTitleNotSent(job: Job, u: JobPatch, now: int, nowIso: string)
    requires u.title == Some("")
    ensures Merge(job, u, now).title == "" && Title !in BuildPayload(u, nowIso)
  {
  }

  /** `moveJob(id, s)` is the update with only `status` set, both in the
      cache and on the wire, whenever `s` is not empty. */
  lemma MoveIsStatusOnlyUpdate(jobs: seq<Job>, id: string, newStatus: string, now: int, nowIso: string)
    requires newStatus != ""
    ensures MoveMatching(jobs, id, newStatus, now) == UpdateMatching(jobs, id, StatusOnly(newStatus), now)
    ensures MovePayload(newStatus, nowIso) == BuildPayload(StatusOnly(newStatus), nowIso)
  {
  }

  /** Fetching back the row `addJob` inserted yields the job it cached, now
      with its owner, when the clock reads back the instant it was written. */
  lemma InsertThenFetch(d: JobDraft, tempId: string, userId: string, now: int, nowIso: string,
                        toMillis: string -> int)
    requires toMillis(nowIso) == now
    ensures MapRow(InsertRow(d, tempId, userId, nowIso), toMillis)
         == NewJob(d, tempId, now).(userId := Some(userId))
  {
  }

  // ---------------------------------------------------------------------------
  // The store
  // ---------------------------------------------------------------------------

  /** The store's state (`interface JobState`) and its five actions. Each
      action is one atomic step: `ok` / `user` / `response` are the outcome
      of its remote call; `now`, `nowIso` and `tempId` are the clock and the
      uuid. Actions that call the server return what they sent. */
  class JobState {
    var jobs: seq<Job>
    var loading: bool

    constructor ()
      ensures jobs == [] && !loading
    {
      jobs := [];
      loading := false;
    }

    /** First half of `fetchJobs`: the flag goes up, the list stays. */
    method StartFetch()
      modifies this
      ensures loading && jobs == old(jobs)
    {
      loading := true;
    }

    /** Second half of `fetchJobs`: the flag goes down on both paths; on
        success the list is replaced by the mapped rows. */
    method FinishFetch(response: FetchResponse, toMillis: string -> int)
      modifies this
      ensures !loading
      ensures response.FetchFailed? ==> jobs == old(jobs)
      ensures response.Fetched? ==> jobs == MapRows(response.rows, toMillis)
    {
      match response
      case FetchFailed =>
        loading := false;
      case Fetched(rows) =>
        jobs, loading := MapRows(rows, toMillis), false;
    }

    method FetchJobs(response: FetchResponse, toMillis: string -> int)
      modifies this
      ensures !loading
      ensures response.FetchFailed? ==> jobs == old(jobs)
      ensures response.Fetched? ==> jobs == MapRows(response.rows, toMillis)
      ensures (if response.Fetched? then UniqueRowIds(response.rows) else UniqueIds(old(jobs)))
              ==> UniqueIds(jobs)
    {
      StartFetch();
      FinishFetch(response, toMillis);
      if response.Fetched? && UniqueRowIds(response.rows) {
        FetchKeepsUniqueIds(response.rows, toMillis);
      }
    }

    /** `addJob`: the new job goes to the front at once. Signed out, nothing
        is inserted and the job stays; a failed insert removes it again. */
    method AddJob(draft: JobDraft, tempId: string, now: int, nowIso: string,
                  user: Option<string>, insertOk: bool)
      returns (inserted: Option<Row>)
      requires !HasId(jobs, tempId)
      modifies this
      ensures loading == old(loading)
      ensures user.None? ==> inserted == None
      ensures user.Some? ==> inserted == Some(InsertRow(draft, tempId, user.value, nowIso))
      ensures jobs == if user.Some? && !insertOk then old(jobs)
                      else [NewJob(draft, tempId, now)] + old(jobs)
      ensures UniqueIds(old(jobs)) ==> UniqueIds(jobs)
    {
      var newJob := NewJob(draft, tempId, now);
      jobs := [newJob] + jobs;
      if user.None? {
        return None;
      }
      inserted := Some(InsertRow(draft, tempId, user.value, nowIso));
      if !insertOk {
        RollbackAddKeepsOthers([], newJob, old(jobs));
        jobs := WithoutId(jobs, tempId);
      }
    }

    /** `updateJob`: merge at once; the payload is always sent; a failure
        restores the snapshot taken at the start. */
    method UpdateJob(id: string, updates: JobPatch, now: int, nowIso: string, ok: bool)
      returns (sent: Payload)
      modifies this
      ensures loading == old(loading)
      ensures sent == BuildPayload(updates, nowIso)
      ensures jobs == if ok then UpdateMatching(old(jobs), id, updates, now) else old(jobs)
      ensures UniqueIds(old(jobs)) && updates.id.None? ==> UniqueIds(jobs)
    {
      if UniqueIds(jobs) && updates.id.None? {
        UpdateKeepsUniqueIds(jobs, id, updates, now);
      }
      var oldJobs := jobs;
      jobs := UpdateMatching(jobs, id, updates, now);
      sent := BuildPayload(updates, nowIso);
      if !ok {
        jobs := oldJobs;
      }
    }

    /** `deleteJob`: filter at once; a failure restores the snapshot. */
    method DeleteJob(id: string, ok: bool)
      modifies this
      ensures loading == old(loading)
      ensures jobs == if ok then WithoutId(old(jobs), id) else old(jobs)
      ensures UniqueIds(old(jobs)) ==> UniqueIds(jobs)
    {
      if UniqueIds(jobs) {
        DeleteKeepsUniqueIds(jobs, id);
      }
      var oldJobs := jobs;
      jobs := WithoutId(jobs, id);
      if !ok {
        jobs := oldJobs;
      }
    }

    /** `moveJob`: set status and stamp at once; the payload is exactly
        status and `updated_at`; a failure restores the snapshot. */
    method MoveJob(id: string, newStatus: string, now: int, nowIso: string, ok: bool)
      returns (sent: Payload)
      modifies this
      ensures loading == old(loading)
      ensures sent == MovePayload(newStatus, nowIso)
      ensures jobs == if ok then MoveMatching(old(jobs), id, newStatus, now) else old(jobs)
      ensures UniqueIds(old(jobs)) ==> UniqueIds(jobs)
    {
      if UniqueIds(jobs) {
        MoveKeepsUniqueIds(jobs, id, newStatus, now);
      }
      var oldJobs := jobs;
      jobs := MoveMatching(jobs, id, newStatus, now);
      sent := MovePayload(newStatus, nowIso);
      if !ok {
        jobs := oldJobs;
      }
    }
  }
}
