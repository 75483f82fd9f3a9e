/**
 * The job-details page (src/pages/JobDetails.tsx): the lookup of the route
 * id in the page's own table of jobs, the apply flow with its role gate and
 * its one-way `hasApplied` flag, saving a job, and the choice of apply
 * control by role.  The signed-in user comes from the session and is
 * passed in; toasts go to an output log and navigation is a result.
 */
module JobDetailsPage {
  import opened Domain

  /** `sampleJobs.find(j => j.id === id)` */
  function FindJob(jobs: seq<Job>, id: string): (r: Option<Job>)
    ensures r.None? <==> forall i :: 0 <= i < |jobs| ==> jobs[i].id != id
    ensures r.Some? ==> exists i :: 0 <= i < |jobs| && jobs[i] == r.value && r.value.id == id &&
                                    (forall j :: 0 <= j < i ==> jobs[j].id != id)
  {
    if jobs == [] then None
    else if jobs[0].id == id then Some(jobs[0])
    else
      var r := FindJob(jobs[1..], id);
      if r.Some? then
        var i :| 0 <= i < |jobs| - 1 && jobs[1..][i] == r.value && r.value.id == id &&
                 (forall j :: 0 <= j < i ==> jobs[1..][j].id != id);
        assert forall j :: 0 <= j < i + 1 ==> jobs[j].id != id by {
          forall j | 0 <= j < i + 1 ensures jobs[j].id != id {
            if j > 0 {
              assert jobs[j] == jobs[1..][j - 1];
            }
          }
        }
        assert jobs[i + 1] == r.value;
        r
      else
        assert forall i :: 0 <= i < |jobs| ==> jobs[i].id != id by {
          forall i | 0 <= i < |jobs| ensures jobs[i].id != id {
            if i > 0 {
              assert jobs[i] == jobs[1..][i - 1];
            }
          }
        }
        r
  }

  /** The page's table holds two jobs, with ids "1" and "2"; the listing shows ids up to "10". */
  predicate IsDetailTable(jobs: seq<Job>) {
    |jobs| == 2 && jobs[0].id == "1" && jobs[1].id == "2"
  }

  /** Only ids "1" and "2" are found; every other id, such as "3" to "10" from the listing, is not. */
  lemma OnlyTwoIdsFound(jobs: seq<Job>, id: string)
    requires IsDetailTable(jobs)
    ensures FindJob(jobs, id).Some? <==> id == "1" || id == "2"
    ensures id == "1" ==> FindJob(jobs, id) == Some(jobs[0])
    ensures id == "2" ==> FindJob(jobs, id) == Some(jobs[1])
  {
    if id == "2" {
      assert jobs[0].id != id;
    }
  }

  /** What `handleApply` does for a user. */
  datatype ApplyOutcome = SignInFirst | NotAJobSeeker | Submitted

  function ApplyDecision(user: Option<User>): (r: ApplyOutcome)
    ensures r == SignInFirst <==> user.None?
    ensures r == Submitted <==> user.Some? && user.value.role == JobSeeker
  {
    if user.None? then SignInFirst
    else if user.value.role != JobSeeker then NotAJobSeeker
    else Submitted
  }

  /** The apply control the page renders for a user. */
  datatype ApplyControl = ApplyDialog | EmployerNotice | SignInButton

  function ControlFor(user: Option<User>): (r: ApplyControl)
    ensures r == ApplyDialog <==> user.Some? && user.value.role == JobSeeker
    ensures r == EmployerNotice <==> user.Some? && user.value.role == Employer
    ensures r == SignInButton <==> user.None? || user.value.role.Admin?
  {
    if user.Some? && user.value.role == JobSeeker then ApplyDialog
    else if user.Some? && user.value.role == Employer then EmployerNotice
    else SignInButton
  }

  /** The apply dialog is offered to exactly the users whose application goes through. */
  lemma DialogIffSubmitted(user: Option<User>)
    ensures ControlFor(user) == ApplyDialog <==> ApplyDecision(user) == Submitted
  {
  }

  /** `handleSaveJob`: the toast depends only on whether someone is signed in. */
  function SaveJobToast(user: Option<User>): (t: Toast)
    ensures t.SuccessToast? <==> user.Some?
    ensures user.None? ==> t.message == "Please sign in to save jobs"
    ensures user.Some? ==> t.message == "Job saved to your favorites"
  {
    if user.None? then ErrorToast("Please sign in to save jobs")
    else SuccessToast("Job saved to your favorites")
  }

  class JobDetails {
    const sampleJobs: seq<Job>
    var job: Option<Job>
    var isLoading: bool
    var isApplying: bool
    var hasApplied: bool
    var openApplyDialog: bool
    var toasts: seq<Toast>

    constructor (table: seq<Job>)
      ensures sampleJobs == table && job.None? && isLoading
      ensures !isApplying && !hasApplied && !openApplyDialog && toasts == []
    {
      sampleJobs := table;
      job := None;
      isLoading := true;
      isApplying := false;
      hasApplied := false;
      openApplyDialog := false;
      toasts := [];
    }

    /** Every Apply button is disabled once an application has been sent. */
    predicate ApplyButtonEnabled()
      reads this
      ensures ApplyButtonEnabled() <==> !hasApplied
    {
      !hasApplied
    }

    /** `fetchJob`: a found job is shown; a missing one sends the visitor back to the listing. */
    method FetchJob(id: string) returns (navigateTo: Option<string>)
      modifies this
      ensures FindJob(sampleJobs, id).Some? ==>
        (job == FindJob(sampleJobs, id) && navigateTo.None? && toasts == old(toasts))
      ensures FindJob(sampleJobs, id).None? ==>
        (job == old(job) && navigateTo == Some("/jobs") && toasts == old(toasts) + [ErrorToast("Job not found")])
      ensures !isLoading
      ensures isApplying == old(isApplying) && hasApplied == old(hasApplied) && openApplyDialog == old(openApplyDialog)
    {
      isLoading := true;
      var found := FindJob(sampleJobs, id);
      if found.Some? {
        job := found;
        navigateTo := None;
      } else {
        toasts := toasts + [ErrorToast("Job not found")];
        navigateTo := Some("/jobs");
      }
      isLoading := false;
    }

    /** An Apply Now button, rendered for job seekers and enabled until they have applied. */
    method ApplyNowClicked(user: Option<User>)
      requires ControlFor(user) == ApplyDialog && ApplyButtonEnabled()
      modifies this
      ensures openApplyDialog
      ensures job == old(job) && isLoading == old(isLoading) && isApplying == old(isApplying)
      ensures hasApplied == old(hasApplied) && toasts == old(toasts)
    {
      openApplyDialog := true;
    }

    /** The dialog's Cancel button. */
    method CancelClicked()
      modifies this
      ensures !openApplyDialog
      ensures job == old(job) && isLoading == old(isLoading) && isApplying == old(isApplying)
      ensures hasApplied == old(hasApplied) && toasts == old(toasts)
    {
      openApplyDialog := false;
    }

    /**
     * `handleApply`: a visitor is sent to sign in, a signed-in user who is
     * not a job seeker is refused, and a job seeker's application is sent,
     * which closes the dialog.  `hasApplied` never goes back to false.
     */
    method HandleApply(user: Option<User>) returns (navigateTo: Option<string>)
      modifies this
      ensures old(hasApplied) ==> hasApplied
      ensures ApplyDecision(user) == SignInFirst ==>
        (navigateTo == Some("/login") && hasApplied == old(hasApplied) && isApplying == old(isApplying) &&
         openApplyDialog == old(openApplyDialog) && toasts == old(toasts) + [ErrorToast("Please sign in to apply for jobs")])
      ensures ApplyDecision(user) == NotAJobSeeker ==>
        (navigateTo.None? && hasApplied == old(hasApplied) && isApplying == old(isApplying) &&
         openApplyDialog == old(openApplyDialog) && toasts == old(toasts) + [ErrorToast("Only job seekers can apply for jobs")])
      ensures ApplyDecision(user) == Submitted ==>
        (navigateTo.None? && hasApplied && !openApplyDialog && !isApplying &&
         toasts == old(toasts) + [SuccessToast("Application submitted successfully")])
      ensures job == old(job) && isLoading == old(isLoading)
    {
      if user.None? {
        toasts := toasts + [ErrorToast("Please sign in to apply for jobs")];
        return Some("/login");
      }
      if user.value.role != JobSeeker {
        toasts := toasts + [ErrorToast("Only job seekers can apply for jobs")];
        return None;
      }
      isApplying := true;
      hasApplied := true;
      openApplyDialog := false;
      toasts := toasts + [SuccessToast("Application submitted successfully")];
      isApplying := false;
      navigateTo := None;
    }

    /** `handleSaveJob` */
    method HandleSaveJob(user: Option<User>)
      modifies this
      ensures toasts == old(toasts) + [SaveJobToast(user)]
      ensures job == old(job) && isLoading == old(isLoading) && isApplying == old(isApplying)
      ensures hasApplied == old(hasApplied) && openApplyDialog == old(openApplyDialog)
    {
      if user.None? {
        toasts := toasts + [ErrorToast("Please sign in to save jobs")];
        return;
      }
      toasts := toasts + [SuccessToast("Job saved to your favorites")];
    }
  }
}
