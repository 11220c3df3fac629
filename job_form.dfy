/**
 * The add/edit form of the Dashboard page: its four pieces of state, the
 * Edit button that loads a job into it, and the save button, which sends
 * a POST (create) or a PUT (update) and clears the form once `fetch`
 * resolves.
 */
module JobForm {
  import opened Wrappers
  import opened Dashboard

  const JobsPath: string := "/api/jobs"

  datatype Verb = Post | Put

  /** The JSON body `{company, role, status}`. */
  datatype JobFields = JobFields(company: string, role: string, status: string)

  /** A request the save button sends; the path is relative to the API's base URL. */
  datatype Request = Request(verb: Verb, path: string, body: JobFields)

  /** `editId ? …`: null and the empty id are both falsy. */
  predicate Editing(editId: Option<string>) {
    editId.Some? && editId.value != ""
  }

  /** The path of one job's resource. */
  function JobPath(id: string): string {
    JobsPath + "/" + id
  }

  /** Reads back the job id from a request path; `None` for the collection path. */
  function TargetId(path: string): (r: Option<string>)
    ensures r.Some? ==> path == JobPath(r.value) && r.value != ""
  {
    var prefix := JobsPath + "/";
    if prefix <= path && |path| > |prefix| then Some(path[|prefix|..]) else None
  }

  /**
   * What a click on the save button sends for the given form state, if
   * anything: nothing when company or role is empty; otherwise the form's
   * fields, PUT to the job being edited or POST to the collection.
   */
  function SaveRequest(company: string, role: string, status: string, editId: Option<string>): (r: Option<Request>)
    ensures r.None? <==> company == "" || role == ""
    ensures r.Some? ==> r.value.body == JobFields(company, role, status)
    ensures r.Some? ==> (r.value.verb == Put <==> Editing(editId))
    ensures r.Some? ==> r.value.path == if Editing(editId) then JobPath(editId.value) else JobsPath
    ensures r.Some? ==> TargetId(r.value.path) == (if Editing(editId) then editId else None)
  {
    if company == "" || role == "" then None
    else
      var path := if Editing(editId) then JobPath(editId.value) else JobsPath;
      var verb := if Editing(editId) then Put else Post;
      Some(Request(verb, path, JobFields(company, role, status)))
  }

  /** The caption of the save button. */
  function ButtonCaption(editId: Option<string>): (r: string)
    ensures r == "Update" || r == "Add"
    ensures r == "Update" <==> Editing(editId)
  {
    if Editing(editId) then "Update" else "Add"
  }

  /** The button reads "Update" exactly when a click would send a PUT. */
  lemma CaptionMatchesVerb(company: string, role: string, status: string, editId: Option<string>)
    requires SaveRequest(company, role, status, editId).Some?
    ensures ButtonCaption(editId) == "Update" <==> SaveRequest(company, role, status, editId).value.verb == Put
    ensures ButtonCaption(editId) == "Add" <==> SaveRequest(company, role, status, editId).value.verb == Post
  {
  }

  /**
   * Editing a job and saving it unchanged sends the job's own fields back
   * to that job's resource.
   */
  lemma EditedJobRoundTrip(job: Job)
    requires job.company != "" && job.role != "" && job.id != ""
    ensures var r := SaveRequest(job.company, job.role, job.status, Some(job.id));
      r.Some? && r.value.verb == Put && TargetId(r.value.path) == Some(job.id)
      && Job(TargetId(r.value.path).value, r.value.body.company, r.value.body.role, r.value.body.status) == job
  {
  }

  /** The form state `company`, `role`, `status`, `editId` of the Dashboard page. */
  class Form {
    var company: string
    var role: string
    var status: string
    var editId: Option<string>

    /** The initial state, which a successful save restores. */
    predicate IsBlank()
      reads this
    {
      company == "" && role == "" && status == Applied && editId == None
    }

    constructor ()
      ensures IsBlank()
    {
      company := "";
      role := "";
      status := Applied;
      editId := None;
    }

    /** The company input's `onChange`. */
    method SetCompany(value: string)
      modifies this
      ensures company == value
      ensures role == old(role) && status == old(status) && editId == old(editId)
    {
      company := value;
    }

    /** The role input's `onChange`. */
    method SetRole(value: string)
      modifies this
      ensures role == value
      ensures company == old(company) && status == old(status) && editId == old(editId)
    {
      role := value;
    }

    /** The status select's `onChange`. */
    method SetStatus(value: string)
      modifies this
      ensures status == value
      ensures company == old(company) && role == old(role) && editId == old(editId)
    {
      status := value;
    }

    /** The Edit button of a job card: copies the job into the form. */
    method StartEdit(job: Job)
      modifies this
      ensures company == job.company && role == job.role && status == job.status
      ensures editId == Some(job.id)
    {
      company := job.company;
      role := job.role;
      status := job.status;
      editId := Some(job.id);
    }

    /**
     * `addOrUpdateJob`, with the awaited `fetch` taken as one step.
     * `sessionParsed` says whether the stored session parsed to a non-null
     * value (without one, reading its token throws before any request);
     * `delivered` says whether `fetch` resolved rather than threw. Either
     * throw is caught and leaves the form as it was. Returns the request
     * sent, if any.
     */
    method Submit(sessionParsed: bool, delivered: bool) returns (sent: Option<Request>)
      modifies this
      ensures sent == (if sessionParsed then SaveRequest(old(company), old(role), old(status), old(editId)) else None)
      ensures sent.Some? && delivered ==> IsBlank()
      ensures !(sent.Some? && delivered) ==>
        company == old(company) && role == old(role) && status == old(status) && editId == old(editId)
    {
      if company == "" || role == "" {
        return None;
      }
      if !sessionParsed {
        return None;
      }
      var path := JobsPath;
      var verb := Post;
      if Editing(editId) {
        path := JobPath(editId.value);
        verb := Put;
      }
      sent := Some(Request(verb, path, JobFields(company, role, status)));
      if !delivered {
        return;
      }
      company := "";
      role := "";
      status := Applied;
      editId := None;
    }
  }

  /**
   * A user clicks Edit on a job card, then the save button twice, the
   * second time after the first save's `fetch` has resolved: the first
   * click sends the job back with PUT, the cleared form makes the second
   * send nothing.
   */
  method EditThenSaveTwice(job: Job) returns (first: Option<Request>, second: Option<Request>)
    requires job.company != "" && job.role != "" && job.id != ""
    ensures first == Some(Request(Put, JobPath(job.id), JobFields(job.company, job.role, job.status)))
    ensures second == None
  {
    var form := new Form();
    form.StartEdit(job);
    first := form.Submit(true, true);
    second := form.Submit(true, true);
  }
}
