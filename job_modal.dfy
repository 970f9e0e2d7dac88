/**
 * The add/edit modal (components/JobModal.tsx): nine form fields that are
 * filled from a job or reset when the modal opens, and a submit that
 * validates them and dispatches one store call.
 */
module JobModal {
  import opened Wrappers
  import opened JobStore

  /** The nine form fields, as the form holds them. */
  datatype FormValues = FormValues(
    title: string,
    company: string,
    status: string,
    priority: string,
    location: string,
    salary: string,
    url: string,
    description: string,
    notes: string)

  /** The fields of a new job. */
  const EmptyForm: FormValues := FormValues("", "", Applied, "Medium", "", "", "", "", "")

  /** `s || fallback` on an optional string. */
  function OrElse(o: Option<string>, fallback: string): (r: string)
    ensures Truthy(o) ==> r == o.value
    ensures !Truthy(o) ==> r == fallback
  {
    if Truthy(o) then o.value else fallback
  }

  /** The fields shown for an existing job: title, company and status as
      they are, priority `'Medium'` when empty, the texts `''` when absent. */
  function FormOf(j: Job): (f: FormValues)
    ensures f.title == j.title && f.company == j.company && f.status == j.status
    ensures f.priority == (if j.priority == "" then "Medium" else j.priority)
    ensures f.location == (if j.location.Some? then j.location.value else "")
    ensures f.salary == (if j.salary.Some? then j.salary.value else "")
    ensures f.url == (if j.url.Some? then j.url.value else "")
    ensures f.description == (if j.description.Some? then j.description.value else "")
    ensures f.notes == (if j.notes.Some? then j.notes.value else "")
  {
    FormValues(j.title, j.company, j.status, OrElse(Some(j.priority), "Medium"),
               OrElse(j.location, ""), OrElse(j.salary, ""), OrElse(j.url, ""),
               OrElse(j.description, ""), OrElse(j.notes, ""))
  }

  /** The store call a submit issues. */
  datatype StoreCall = NoCall | UpdateCall(id: string, updates: JobPatch) | AddCall(draft: JobDraft)

  /** What a submit does: the store call and whether `onClose` runs. */
  datatype Submission = Submission(call: StoreCall, closes: bool)

  /** `updateJob`'s second argument: all nine fields, nothing else. */
  function PatchOf(f: FormValues): (u: JobPatch)
    ensures u.id.None? && u.createdAt.None? && u.updatedAt.None? && u.userId.None?
  {
    JobPatch(None, Some(f.title), Some(f.company), Some(f.status), Some(f.priority),
             Some(f.description), Some(f.location), Some(f.salary), Some(f.url), Some(f.notes),
             None, None, None)
  }

  /** `addJob`'s argument: the nine fields and a `createdAt` of `now`. */
  function DraftOf(f: FormValues, now: int): (d: JobDraft)
    ensures d.title == f.title && d.company == f.company
    ensures d.status == f.status && d.priority == f.priority
    ensures d.location == Some(f.location) && d.salary == Some(f.salary) && d.url == Some(f.url)
    ensures d.description == Some(f.description) && d.notes == Some(f.notes)
    ensures d.createdAt == Some(now)
  {
    JobDraft(f.title, f.company, f.status, f.priority,
             Some(f.description), Some(f.location), Some(f.salary), Some(f.url), Some(f.notes),
             Some(now))
  }

  /** `handleSubmit`: an empty title or company does nothing; otherwise one
      update of the edited job, or one add, and then the modal closes. */
  function HandleSubmit(f: FormValues, jobToEdit: Option<Job>, now: int): (s: Submission)
    ensures s.closes <==> f.title != "" && f.company != ""
    ensures s.call.NoCall? <==> !s.closes
    ensures s.call.UpdateCall? <==> s.closes && jobToEdit.Some?
    ensures s.call.UpdateCall? ==> s.call.id == jobToEdit.value.id && s.call.updates == PatchOf(f)
    ensures s.call.AddCall? ==> s.call.draft == DraftOf(f, now)
  {
    if f.title == "" || f.company == "" then Submission(NoCall, false)
    else if jobToEdit.Some? then Submission(UpdateCall(jobToEdit.value.id, PatchOf(f)), true)
    else Submission(AddCall(DraftOf(f, now)), true)
  }

  /** The modal's form state. */
  class JobForm {
    var title: string
    var company: string
    var status: string
    var priority: string
    var location: string
    var salary: string
    var url: string
    var description: string
    var notes: string

    constructor ()
      ensures Values() == EmptyForm
    {
      title, company, status, priority := "", "", Applied, "Medium";
      location, salary, url, description, notes := "", "", "", "", "";
    }

    function Values(): FormValues
      reads this
    {
      FormValues(title, company, status, priority, location, salary, url, description, notes)
    }

    /** The effect that runs when `isOpen` or `jobToEdit` changes. */
    method Sync(isOpen: bool, jobToEdit: Option<Job>)
      modifies this
      ensures !isOpen ==> Values() == old(Values())
      ensures isOpen && jobToEdit.Some? ==> Values() == FormOf(jobToEdit.value)
      ensures isOpen && jobToEdit.None? ==> Values() == EmptyForm
    {
      if isOpen {
        if jobToEdit.Some? {
          var j := jobToEdit.value;
          title := j.title;
          company := j.company;
          status := j.status;
          priority := OrElse(Some(j.priority), "Medium");
          location := OrElse(j.location, "");
          salary := OrElse(j.salary, "");
          url := OrElse(j.url, "");
          description := OrElse(j.description, "");
          notes := OrElse(j.notes, "");
        } else {
          title := "";
          company := "";
          status := Applied;
          priority := "Medium";
          location := "";
          salary := "";
          url := "";
          description := "";
          notes := "";
        }
      }
    }
  }

  // ---------------------------------------------------------------------------
  // Lemmas connecting the form to the store
  // ---------------------------------------------------------------------------

  /** Reopening the modal on a job just edited shows exactly what was
      submitted (the priority select never yields an empty value). */
  lemma EditThenReopen(f: FormValues, jobs: seq<Job>, j: Job, now: int, stamp: int, i: int)
    requires f.priority != ""
    requires HandleSubmit(f, Some(j), stamp).call.UpdateCall?
    requires 0 <= i < |jobs| && jobs[i].id == j.id
    ensures FormOf(UpdateMatching(jobs, j.id, PatchOf(f), now)[i]) == f
  {
  }

  /** Opening the modal on the job just added shows exactly what was
      submitted. */
  lemma AddThenReopen(f: FormValues, stamp: int, tempId: string, now: int)
    requires f.priority != ""
    requires HandleSubmit(f, None, stamp).call.AddCall?
    ensures FormOf(NewJob(HandleSubmit(f, None, stamp).call.draft, tempId, now)) == f
  {
  }

  /** Opening a job whose optional texts are all defined and saving it
      unchanged only stamps `updatedAt`. */
  lemma SaveUnchanged(j: Job, now: int)
    requires j.title != "" && j.company != "" && j.priority != ""
    requires j.location.Some? && j.salary.Some? && j.url.Some?
    requires j.description.Some? && j.notes.Some?
    ensures Merge(j, PatchOf(FormOf(j)), now) == j.(updatedAt := now)
  {
  }

  /** The edit payload carries title, company and the five texts always,
      and status and priority when they are not empty. */
  lemma EditPayload(f: FormValues, nowIso: string)
    requires f.title != "" && f.company != ""
    ensures var p := BuildPayload(PatchOf(f), nowIso);
      && p[Title] == f.title && p[Company] == f.company
      && p[Description] == f.description && p[Location] == f.location
      && p[Salary] == f.salary && p[Url] == f.url && p[Notes] == f.notes
      && (Status in p <==> f.status != "") && (Priority in p <==> f.priority != "")
  {
  }
}
