/**
 * The employer dashboard (src/pages/EmployerDashboard.tsx): who may see it,
 * the three counts at its top, the application status badge, the labels of
 * its job-posting form, and the `isSubmitting`/`openNewJobDialog` flags of
 * `handleCreateJob`.
 */
module EmployerDashboardPage {
  import opened Domain
  import opened SearchFilters

  /** An application as the dashboard lists it (its date only feeds a relative-time display). */
  datatype Application = Application(
    id: string, jobId: string, jobTitle: string, applicantName: string, applicantEmail: string, status: string)

  /** The three sample applications, as far as the counts and badges see them. */
  const SampleApplications: seq<Application> := [
    Application("1", "1", "Senior Frontend Developer", "John Smith", "john.smith@example.com", "reviewing"),
    Application("2", "1", "Senior Frontend Developer", "Emily Johnson", "emily.johnson@example.com", "reviewing"),
    Application("3", "2", "UX/UI Designer", "Michael Brown", "michael.brown@example.com", "pending")]

  // ---------------------------------------------------------------------------
  // Access

  datatype Access = RedirectToLogin | RedirectHome | Render

  /** The guard at the top of the page: sign-in is checked before the role. */
  function AccessFor(user: Option<User>): (r: Access)
    ensures r == RedirectToLogin <==> user.None?
    ensures r == RedirectHome <==> user.Some? && user.value.role != Employer
    ensures r == Render <==> user.Some? && user.value.role == Employer
  {
    if user.None? then RedirectToLogin
    else if user.value.role != Employer then RedirectHome
    else Render
  }

  /** Where a redirecting guard sends the visitor. */
  function RedirectTarget(a: Access): (r: Option<string>)
    ensures r.None? <==> a == Render
    ensures a == RedirectToLogin ==> r == Some("/login")
    ensures a == RedirectHome ==> r == Some("/")
  {
    match a
    case RedirectToLogin => Some("/login")
    case RedirectHome => Some("/")
    case Render => None
  }

  // ---------------------------------------------------------------------------
  // Counts

  /** `applications.filter(a => a.status === "pending").length` */
  function CountPending(apps: seq<Application>): (r: nat)
    ensures r <= |apps|
    ensures r == 0 <==> forall i :: 0 <= i < |apps| ==> apps[i].status != "pending"
    ensures r == |apps| <==> forall i :: 0 <= i < |apps| ==> apps[i].status == "pending"
  {
    if apps == [] then 0
    else
      var rest := CountPending(apps[1..]);
      assert forall i :: 0 < i < |apps| ==> apps[i] == apps[1..][i - 1];
      (if apps[0].status == "pending" then 1 else 0) + rest
  }

  /** Counting a list in two parts counts the whole. */
  lemma {:induction false} CountPendingAppend(a: seq<Application>, b: seq<Application>)
    ensures CountPending(a + b) == CountPending(a) + CountPending(b)
  {
    if a == [] {
      assert a + b == b;
    } else {
      assert (a + b)[0] == a[0];
      assert (a + b)[1..] == a[1..] + b;
      CountPendingAppend(a[1..], b);
    }
  }

  datatype Stats = Stats(activeJobs: nat, totalApplications: nat, newApplications: nat)

  /** The Active Jobs, Total Applications and New Applications cards. */
  function DashboardStats(jobs: seq<Job>, apps: seq<Application>): (s: Stats)
    ensures s.activeJobs == |jobs| && s.totalApplications == |apps|
    ensures s.newApplications == CountPending(apps) && s.newApplications <= s.totalApplications
  {
    Stats(|jobs|, |apps|, CountPending(apps))
  }

  /** With the sample data: two reviewing applications and one pending one. */
  lemma SampleCounts()
    ensures CountPending(SampleApplications) == 1
  {
    var a := SampleApplications;
    assert a[1..][1..][1..] == [];
  }

  /** The status badge: "Reviewing" for "reviewing", "New" for any other status. */
  function StatusBadge(status: string): (r: string)
    ensures r == "Reviewing" <==> status == "reviewing"
    ensures r == "New" <==> status != "reviewing"
  {
    if status == "reviewing" then "Reviewing" else "New"
  }

  /** How many rows of the applications table carry the "New" badge. */
  function CountNewBadges(apps: seq<Application>): (r: nat)
    ensures r <= |apps|
    ensures r == 0 <==> forall i :: 0 <= i < |apps| ==> apps[i].status == "reviewing"
    ensures r == |apps| <==> forall i :: 0 <= i < |apps| ==> apps[i].status != "reviewing"
  {
    if apps == [] then 0
    else
      var rest := CountNewBadges(apps[1..]);
      assert forall i :: 0 < i < |apps| ==> apps[i] == apps[1..][i - 1];
      (if StatusBadge(apps[0].status) == "New" then 1 else 0) + rest
  }

  /**
   * Every pending application shows "New", so the New Applications card never
   * exceeds the number of "New" badges; other statuses such as "rejected" are
   * badged "New" without being counted.
   */
  lemma {:induction false} PendingCountedAsNew(apps: seq<Application>)
    ensures CountPending(apps) <= CountNewBadges(apps)
  {
    if apps != [] {
      PendingCountedAsNew(apps[1..]);
    }
  }

  // ---------------------------------------------------------------------------
  // The job-posting form

  // The form's three selects list every member through the labels of
  // SearchFilters (JobTypeLabel, ExperienceLevelLabel, CategoryLabel).

  /** The defaults of the three selects. */
  const DefaultJobType: JobType := FullTime
  const DefaultExperienceLevel: ExperienceLevel := Mid
  const DefaultCategory: JobCategory := Technology

  class Dashboard {
    var openNewJobDialog: bool
    var isSubmitting: bool
    var selectedTab: string
    var toasts: seq<Toast>

    constructor ()
      ensures !openNewJobDialog && !isSubmitting && selectedTab == "jobs" && toasts == []
    {
      openNewJobDialog := false;
      isSubmitting := false;
      selectedTab := "jobs";
      toasts := [];
    }

    /** "Post New Job" opens the form dialog. */
    method PostNewJobClicked()
      modifies this
      ensures openNewJobDialog && isSubmitting == old(isSubmitting)
      ensures selectedTab == old(selectedTab) && toasts == old(toasts)
    {
      openNewJobDialog := true;
    }

    /** `handleCreateJob`: submitting while the post is sent, the dialog closed once it is. */
    method HandleCreateJob()
      modifies this
      ensures !isSubmitting && !openNewJobDialog
      ensures toasts == old(toasts) + [SuccessToast("Job posted successfully")]
      ensures selectedTab == old(selectedTab)
    {
      isSubmitting := true;
      openNewJobDialog := false;
      toasts := toasts + [SuccessToast("Job posted successfully")];
      isSubmitting := false;
    }

    /** The dialog's Cancel button. */
    method CancelClicked()
      modifies this
      ensures !openNewJobDialog && isSubmitting == old(isSubmitting)
      ensures selectedTab == old(selectedTab) && toasts == old(toasts)
    {
      openNewJobDialog := false;
    }

    /** The tabs switch between the job list and the applications. */
    method TabSelected(tab: string)
      modifies this
      ensures selectedTab == tab
      ensures openNewJobDialog == old(openNewJobDialog) && isSubmitting == old(isSubmitting) && toasts == old(toasts)
    {
      selectedTab := tab;
    }
  }
}
