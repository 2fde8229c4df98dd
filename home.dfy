/**
 * The customer's home screen: the status label and colour of a job card,
 * the recent-jobs slice, and where "Request a Service" leads.
 */
module Home {
  import opened Types
  import Navigation
  import JobCreation = CreateJob

  /** The theme colours the status badge can take. */
  datatype ColorToken = Warning | Info | Primary | Success | TextLight

  /** `getJobStatusText`: a label for the four active statuses, the raw string otherwise. */
  function StatusText(status: string): string {
    if status == "pending" then "Waiting for Pro"
    else if status == "accepted" then "Pro Assigned"
    else if status == "in_progress" then "In Progress"
    else if status == "completed" then "Completed"
    else status
  }

  /** `getJobStatusColor`. */
  function StatusColor(status: string): ColorToken {
    if status == "pending" then Warning
    else if status == "accepted" then Info
    else if status == "in_progress" then Primary
    else if status == "completed" then Success
    else TextLight
  }

  /** The label of every status, read off its stored name; a cancelled job shows "cancelled". */
  lemma StatusTexts()
    ensures StatusText(Pending.Name()) == "Waiting for Pro"
    ensures StatusText(Accepted.Name()) == "Pro Assigned"
    ensures StatusText(InProgress.Name()) == "In Progress"
    ensures StatusText(Completed.Name()) == "Completed"
    ensures StatusText(Cancelled.Name()) == "cancelled"
  {
  }

  /** A string that is not one of the four handled names is shown as it is. */
  lemma StatusTextFallsThrough(status: string)
    requires status !in {"pending", "accepted", "in_progress", "completed"}
    ensures StatusText(status) == status
    ensures StatusColor(status) == TextLight
  {
  }

  /** Different statuses get different labels, so the badge identifies the status. */
  lemma StatusTextsDistinct(s: JobStatus, t: JobStatus)
    requires s != t
    ensures StatusText(s.Name()) != StatusText(t.Name())
  {
  }

  /** The colours: one per active status, and the light text colour for cancelled. */
  lemma StatusColors(s: JobStatus)
    ensures StatusColor(s.Name()) == match s
      case Pending => Warning
      case Accepted => Info
      case InProgress => Primary
      case Completed => Success
      case Cancelled => TextLight
    ensures StatusColor(s.Name()) == TextLight <==> s == Cancelled
  {
  }

  /** `jobs.slice(0, 3)`. */
  function RecentJobs(jobs: seq<Job>): seq<Job> {
    if |jobs| <= 3 then jobs else jobs[..3]
  }

  /** The first three jobs, or all of them when there are fewer, in order. */
  lemma RecentJobsPrefix(jobs: seq<Job>)
    ensures |RecentJobs(jobs)| == if |jobs| < 3 then |jobs| else 3
    ensures RecentJobs(jobs) == jobs[..|RecentJobs(jobs)|]
    ensures forall i :: 0 <= i < |RecentJobs(jobs)| ==> RecentJobs(jobs)[i] == jobs[i]
  {
  }

  /** No category is selected when the screen opens. */
  const InitialSelection: Option<ServiceCategory> := None

  /** A navigation request: the screen and the route parameter. */
  datatype Navigate = Navigate(route: Navigation.RouteName, category: Option<ServiceCategory>)

  /** `handleCreateJob`: straight to the form with the selected category, or to the category picker. */
  function RequestService(selected: Option<ServiceCategory>): Navigate {
    if selected.Some? then Navigate(Navigation.CreateJob, selected)
    else Navigate(Navigation.SelectService, None)
  }

  lemma RequestServiceTargets(selected: Option<ServiceCategory>)
    ensures RequestService(selected).route == Navigation.CreateJob <==> selected.Some?
    ensures RequestService(selected).route == Navigation.SelectService <==> selected.None?
    ensures RequestService(selected).category == selected
    ensures RequestService(InitialSelection).route == Navigation.SelectService
  {
  }

  /** For a signed-in user, both targets are screens the root stack registers. */
  lemma RequestServiceIsRegistered(selected: Option<ServiceCategory>, u: User)
    ensures RequestService(selected).route in Navigation.Registered(Navigation.RenderRoot(Some(u), false))
  {
    Navigation.RouteRootSelection(Some(u), false);
  }

  /** End to end: a job submitted from the form the home screen opens has the
      category the customer selected. */
  lemma SelectedCategoryReachesJob(c: ServiceCategory, form: JobCreation.JobForm, photos: seq<string>,
                                   id: string, now: Timestamp, preferredDate: Timestamp)
    ensures JobCreation.NewJob(form, photos, RequestService(Some(c)).category, id, now, preferredDate).serviceCategory == c
    ensures JobCreation.NewJob(form, photos, RequestService(Some(c)).category, id, now, preferredDate).status == Pending
  {
  }
}
