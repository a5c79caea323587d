/**
 * The job listing page: the conjunctive search/category/status filter, the three tab
 * partitions, the page state that recomputes the visible list, the status badge, the
 * card's action button and the guard order of applying for a job.
 */
module Jobs {
  import opened Wrappers
  import Seqs
  import Text

  /** A job row as the page holds it, with the poster's display fields already attached. */
  datatype Job = Job(
    id: string,
    title: string,
    description: string,
    categoryId: int,
    categoryName: Option<string>,
    clientId: string,
    workerId: Option<string>,
    status: string,
    budget: Option<string>,
    location: Option<string>,
    createdAt: string,
    clientName: Option<string>,
    clientUsername: Option<string>)

  /** The sentinel value of the category and status drop-downs meaning "no filter". */
  const All := "_all"

  /** The four statuses a job is meant to have; the status drop-down offers exactly these. */
  const Statuses := ["open", "assigned", "completed", "cancelled"]

  datatype Filters = Filters(searchTerm: string, categoryFilter: string, statusFilter: string)

  /** The filter inputs' initial values, and their values after every tab change. */
  const NoFilters := Filters("", All, All)

  /** Case-insensitive occurrence of the term in the title, the description or a non-empty location. */
  predicate MatchesSearch(job: Job, term: string)
  {
    var t := Text.Lower(term);
    || term == ""
    || Text.Contains(Text.Lower(job.title), t)
    || Text.Contains(Text.Lower(job.description), t)
    || (job.location.Some? && job.location.value != "" && Text.Contains(Text.Lower(job.location.value), t))
  }

  /** The category drop-down holds a category id in decimal, compared with the job's printed id. */
  predicate MatchesCategory(job: Job, categoryFilter: string)
  {
    categoryFilter == All || Text.IntToString(job.categoryId) == categoryFilter
  }

  predicate MatchesStatus(job: Job, statusFilter: string)
  {
    statusFilter == All || job.status == statusFilter
  }

  predicate Keep(job: Job, f: Filters)
  {
    MatchesSearch(job, f.searchTerm) && MatchesCategory(job, f.categoryFilter) && MatchesStatus(job, f.statusFilter)
  }

  /** The page's `filterJobs`: an undefined list gives the empty list. */
  function FilterJobs(jobs: Option<seq<Job>>, f: Filters): seq<Job>
  {
    match jobs
    case None => []
    case Some(js) => Seqs.Filter(js, job => Keep(job, f))
  }

  /** All jobs minus the viewer's own; with no (or an empty) user id, all jobs. */
  function OtherJobs(all: seq<Job>, userId: Option<string>): seq<Job>
  {
    if Truthy(userId) then Seqs.Filter(all, (job: Job) => job.clientId != userId.value) else all
  }

  const AllJobsTab := "all-jobs"
  const MyJobsTab := "my-jobs"
  const AssignedJobsTab := "assigned-jobs"

  /**
   * The filtering effect: the new value of the visible list, or None when the effect leaves it
   * as it was (the all-jobs tab while the all-jobs query has no data). Any tab value other than
   * the two named ones behaves as the all-jobs tab.
   */
  function TabView(tab: string, userId: Option<string>, allJobs: Option<seq<Job>>,
                   myJobs: Option<seq<Job>>, assignedJobs: Option<seq<Job>>, f: Filters): Option<seq<Job>>
  {
    if tab == MyJobsTab then Some(FilterJobs(myJobs, f))
    else if tab == AssignedJobsTab then Some(FilterJobs(assignedJobs, f))
    else if allJobs.Some? then Some(FilterJobs(Some(OtherJobs(allJobs.value, userId)), f))
    else None
  }

  /** The base collection of a tab, before the search, category and status filters; no data counts as empty. */
  function Partition(tab: string, userId: Option<string>, allJobs: Option<seq<Job>>,
                     myJobs: Option<seq<Job>>, assignedJobs: Option<seq<Job>>): seq<Job>
  {
    if tab == MyJobsTab then myJobs.GetOr([])
    else if tab == AssignedJobsTab then assignedJobs.GetOr([])
    else OtherJobs(allJobs.GetOr([]), userId)
  }

  // ----- Properties of the filter -----

  /** The filtered list is drawn from its input in the same order, and repeats nothing. */
  lemma FilterJobsSubsequence(jobs: seq<Job>, f: Filters)
    ensures Seqs.IsSubsequence(FilterJobs(Some(jobs), f), jobs)
    ensures multiset(FilterJobs(Some(jobs), f)) <= multiset(jobs)
  {
    Seqs.FilterIsSubsequence(jobs, job => Keep(job, f));
    Seqs.SubsequenceMultiset(FilterJobs(Some(jobs), f), jobs);
  }

  /** A job is kept exactly when it matches the search, the category and the status. */
  lemma FilterJobsMembership(jobs: seq<Job>, f: Filters, job: Job)
    ensures job in FilterJobs(Some(jobs), f) <==>
      job in jobs && MatchesSearch(job, f.searchTerm) && MatchesCategory(job, f.categoryFilter)
      && MatchesStatus(job, f.statusFilter)
  {
    Seqs.FilterMembership(jobs, job => Keep(job, f), job);
  }

  /** Filtering the filtered list again with the same inputs changes nothing. */
  lemma FilterJobsIdempotent(jobs: seq<Job>, f: Filters)
    ensures FilterJobs(Some(FilterJobs(Some(jobs), f)), f) == FilterJobs(Some(jobs), f)
  {
    Seqs.FilterIdempotent(jobs, job => Keep(job, f));
  }

  /** An empty term with both drop-downs at "_all" shows the base list unchanged. */
  lemma NoFiltersIdentity(jobs: seq<Job>)
    ensures FilterJobs(Some(jobs), NoFilters) == jobs
  {
    Seqs.FilterKeepsAll(jobs, job => Keep(job, NoFilters));
  }

  /** The search does not see letter case: a term matches exactly when its lower-cased form does. */
  lemma SearchIgnoresCase(job: Job, term: string)
    ensures MatchesSearch(job, term) <==> MatchesSearch(job, Text.Lower(term))
  {
    Text.LowerIdempotent(term);
  }

  /** A job without a location is found by a non-empty term only through its title or description. */
  lemma SearchWithoutLocation(job: Job, term: string)
    requires job.location.None? && term != ""
    ensures MatchesSearch(job, term) <==>
      Text.Contains(Text.Lower(job.title), Text.Lower(term)) || Text.Contains(Text.Lower(job.description), Text.Lower(term))
  {
  }

  /** Choosing a category in the drop-down (its id in decimal) keeps exactly the jobs of that category. */
  lemma CategoryFilterSelectsId(job: Job, id: int)
    ensures MatchesCategory(job, Text.IntToString(id)) <==> job.categoryId == id
  {
    if Text.IntToString(job.categoryId) == Text.IntToString(id) {
      Text.IntToStringInjective(job.categoryId, id);
    }
    assert Text.IntToString(id) != All by {
      assert All[0] == '_';
    }
  }

  // ----- Properties of the tabs -----

  /** With a signed-in viewer the all-jobs partition is all jobs minus those the viewer posted, in order. */
  lemma OtherJobsExcludesOwn(all: seq<Job>, u: string, job: Job)
    requires u != ""
    ensures job in OtherJobs(all, Some(u)) <==> job in all && job.clientId != u
  {
    Seqs.FilterMembership(all, (job: Job) => job.clientId != u, job);
  }

  /** The all-jobs partition keeps the order of all jobs. */
  lemma OtherJobsInOrder(all: seq<Job>, userId: Option<string>)
    ensures Seqs.IsSubsequence(OtherJobs(all, userId), all)
  {
    if Truthy(userId) {
      Seqs.FilterIsSubsequence(all, (job: Job) => job.clientId != userId.value);
    } else {
      Seqs.SubsequenceReflexive(all);
    }
  }

  /** Without a viewer the all-jobs partition is every job. */
  lemma OtherJobsWithoutViewer(all: seq<Job>, userId: Option<string>)
    requires !Truthy(userId)
    ensures OtherJobs(all, userId) == all
  {
  }

  /** The effect leaves the list alone exactly on the all-jobs tab while that query has no data. */
  lemma TabViewDefined(tab: string, userId: Option<string>, allJobs: Option<seq<Job>>,
                       myJobs: Option<seq<Job>>, assignedJobs: Option<seq<Job>>, f: Filters)
    ensures TabView(tab, userId, allJobs, myJobs, assignedJobs, f).None? <==>
      tab != MyJobsTab && tab != AssignedJobsTab && allJobs.None?
  {
  }

  /** With no data the my-jobs and assigned-jobs tabs show nothing. */
  lemma UndefinedListShowsNothing(tab: string, userId: Option<string>, allJobs: Option<seq<Job>>, f: Filters)
    requires tab == MyJobsTab || tab == AssignedJobsTab
    ensures TabView(tab, userId, allJobs, None, None, f) == Some([])
  {
  }

  /**
   * Whatever the tab, a new visible list is the tab's partition restricted to matching jobs:
   * an order-preserving subsequence whose members are exactly the matching members of the partition.
   */
  lemma TabViewSelects(tab: string, userId: Option<string>, allJobs: Option<seq<Job>>,
                       myJobs: Option<seq<Job>>, assignedJobs: Option<seq<Job>>, f: Filters, job: Job)
    requires TabView(tab, userId, allJobs, myJobs, assignedJobs, f).Some?
    ensures var v := TabView(tab, userId, allJobs, myJobs, assignedJobs, f).value;
      var base := Partition(tab, userId, allJobs, myJobs, assignedJobs);
      Seqs.IsSubsequence(v, base) && (job in v <==> job in base && Keep(job, f))
  {
    var base := Partition(tab, userId, allJobs, myJobs, assignedJobs);
    assert TabView(tab, userId, allJobs, myJobs, assignedJobs, f).value == FilterJobs(Some(base), f);
    FilterJobsSubsequence(base, f);
    FilterJobsMembership(base, f, job);
  }

  /** On the all-jobs tab a signed-in viewer never sees a job they posted. */
  lemma AllJobsTabHidesOwnJobs(tab: string, u: string, all: seq<Job>,
                               myJobs: Option<seq<Job>>, assignedJobs: Option<seq<Job>>, f: Filters)
    requires tab != MyJobsTab && tab != AssignedJobsTab && u != ""
    ensures var v := TabView(tab, Some(u), Some(all), myJobs, assignedJobs, f);
      v.Some? && Seqs.IsSubsequence(v.value, all) && forall job :: job in v.value ==> job.clientId != u
  {
    var v := TabView(tab, Some(u), Some(all), myJobs, assignedJobs, f).value;
    var others := OtherJobs(all, Some(u));
    FilterJobsSubsequence(others, f);
    OtherJobsInOrder(all, Some(u));
    Seqs.SubsequenceTransitive(v, others, all);
    forall job | job in v ensures job.clientId != u {
      FilterJobsMembership(others, f, job);
      OtherJobsExcludesOwn(all, u, job);
    }
  }

  /** With the filters reset, a tab whose data is there shows its whole partition. */
  lemma ResetShowsPartition(tab: string, userId: Option<string>, allJobs: Option<seq<Job>>,
                            myJobs: Option<seq<Job>>, assignedJobs: Option<seq<Job>>)
    requires TabView(tab, userId, allJobs, myJobs, assignedJobs, NoFilters).Some?
    ensures TabView(tab, userId, allJobs, myJobs, assignedJobs, NoFilters).value
      == Partition(tab, userId, allJobs, myJobs, assignedJobs)
  {
    NoFiltersIdentity(Partition(tab, userId, allJobs, myJobs, assignedJobs));
  }

  // ----- Page state -----

  /** The queries a tab change asks to be fetched again. */
  datatype JobQuery = AllJobsQuery | MyJobsQuery | AssignedJobsQuery

  /**
   * The jobs page's state. Each event method applies the page's state setters and then the
   * filtering effect, so the visible list is recomputed from the inputs as they now stand.
   */
  class JobsPage {
    var userId: Option<string>
    var searchTerm: string
    var categoryFilter: string
    var statusFilter: string
    var filteredJobs: seq<Job>
    var activeTab: string
    var allJobs: Option<seq<Job>>
    var myJobs: Option<seq<Job>>
    var assignedJobs: Option<seq<Job>>

    function CurrentFilters(): Filters
      reads this
    {
      Filters(searchTerm, categoryFilter, statusFilter)
    }

    /** What the filtering effect would now set the visible list to, if anything. */
    function View(): Option<seq<Job>>
      reads this
    {
      TabView(activeTab, userId, allJobs, myJobs, assignedJobs, CurrentFilters())
    }

    /** The visible list is the view of the current inputs whenever that view is defined. */
    ghost predicate ShowsView()
      reads this
    {
      View().Some? ==> filteredJobs == View().value
    }

    constructor ()
      ensures userId == None && activeTab == AllJobsTab && CurrentFilters() == NoFilters
      ensures allJobs == None && myJobs == None && assignedJobs == None
      ensures filteredJobs == [] && ShowsView()
    {
      userId := None;
      searchTerm := "";
      categoryFilter := All;
      statusFilter := All;
      filteredJobs := [];
      activeTab := AllJobsTab;
      allJobs, myJobs, assignedJobs := None, None, None;
    }

    /** The filtering effect, run whenever one of its inputs changes. */
    method Recompute()
      modifies this`filteredJobs
      ensures filteredJobs == if View().Some? then View().value else old(filteredJobs)
      ensures ShowsView()
    {
      var f := CurrentFilters();
      if activeTab == MyJobsTab {
        filteredJobs := FilterJobs(myJobs, f);
      } else if activeTab == AssignedJobsTab {
        filteredJobs := FilterJobs(assignedJobs, f);
      } else {
        if allJobs.Some? {
          var otherJobs := OtherJobs(allJobs.value, userId);
          filteredJobs := FilterJobs(Some(otherJobs), f);
        }
      }
    }

    /** Selecting a tab resets every filter input and asks for that tab's query to be fetched again. */
    method HandleTabChange(value: string) returns (refetch: Option<JobQuery>)
      modifies this
      ensures activeTab == value && CurrentFilters() == NoFilters
      ensures userId == old(userId) && allJobs == old(allJobs) && myJobs == old(myJobs) && assignedJobs == old(assignedJobs)
      ensures filteredJobs == if View().Some? then Partition(value, userId, allJobs, myJobs, assignedJobs) else old(filteredJobs)
      ensures ShowsView()
      ensures refetch == if value == AllJobsTab then Some(AllJobsQuery)
                         else if value == MyJobsTab then Some(MyJobsQuery)
                         else if value == AssignedJobsTab then Some(AssignedJobsQuery)
                         else None
    {
      activeTab := value;
      searchTerm := "";
      categoryFilter := All;
      statusFilter := All;
      refetch := None;
      if value == AllJobsTab { refetch := Some(AllJobsQuery); }
      if value == MyJobsTab { refetch := Some(MyJobsQuery); }
      if value == AssignedJobsTab { refetch := Some(AssignedJobsQuery); }
      Recompute();
      if View().Some? {
        ResetShowsPartition(activeTab, userId, allJobs, myJobs, assignedJobs);
      }
    }

    method SetSearchTerm(term: string)
      modifies this
      ensures searchTerm == term && categoryFilter == old(categoryFilter) && statusFilter == old(statusFilter)
      ensures activeTab == old(activeTab) && userId == old(userId)
      ensures allJobs == old(allJobs) && myJobs == old(myJobs) && assignedJobs == old(assignedJobs)
      ensures filteredJobs == if View().Some? then View().value else old(filteredJobs)
      ensures ShowsView()
    {
      searchTerm := term;
      Recompute();
    }

    method SetCategoryFilter(value: string)
      modifies this
      ensures categoryFilter == value && searchTerm == old(searchTerm) && statusFilter == old(statusFilter)
      ensures activeTab == old(activeTab) && userId == old(userId)
      ensures allJobs == old(allJobs) && myJobs == old(myJobs) && assignedJobs == old(assignedJobs)
      ensures filteredJobs == if View().Some? then View().value else old(filteredJobs)
      ensures ShowsView()
    {
      categoryFilter := value;
      Recompute();
    }

    method SetStatusFilter(value: string)
      modifies this
      ensures statusFilter == value && searchTerm == old(searchTerm) && categoryFilter == old(categoryFilter)
      ensures activeTab == old(activeTab) && userId == old(userId)
      ensures allJobs == old(allJobs) && myJobs == old(myJobs) && assignedJobs == old(assignedJobs)
      ensures filteredJobs == if View().Some? then View().value else old(filteredJobs)
      ensures ShowsView()
    {
      statusFilter := value;
      Recompute();
    }

    /** The session lookup found a signed-in user. */
    method SignedIn(id: string)
      modifies this
      ensures userId == Some(id) && CurrentFilters() == old(CurrentFilters()) && activeTab == old(activeTab)
      ensures allJobs == old(allJobs) && myJobs == old(myJobs) && assignedJobs == old(assignedJobs)
      ensures filteredJobs == if View().Some? then View().value else old(filteredJobs)
      ensures ShowsView()
    {
      userId := Some(id);
      Recompute();
    }

    /** One of the three job queries delivered its data. */
    method JobsLoaded(query: JobQuery, jobs: seq<Job>)
      modifies this
      ensures allJobs == if query == AllJobsQuery then Some(jobs) else old(allJobs)
      ensures myJobs == if query == MyJobsQuery then Some(jobs) else old(myJobs)
      ensures assignedJobs == if query == AssignedJobsQuery then Some(jobs) else old(assignedJobs)
      ensures userId == old(userId) && CurrentFilters() == old(CurrentFilters()) && activeTab == old(activeTab)
      ensures filteredJobs == if View().Some? then View().value else old(filteredJobs)
      ensures ShowsView()
    {
      match query {
        case AllJobsQuery => allJobs := Some(jobs);
        case MyJobsQuery => myJobs := Some(jobs);
        case AssignedJobsQuery => assignedJobs := Some(jobs);
      }
      Recompute();
    }
  }

  // ----- The job card -----

  /** The badge style of a status; anything outside the four statuses gets the gray default. */
  function StatusBadgeClass(status: string): string
  {
    match status
    case "open" => "bg-emerald-100 text-emerald-800"
    case "assigned" => "bg-blue-100 text-blue-800"
    case "completed" => "bg-purple-100 text-purple-800"
    case "cancelled" => "bg-red-100 text-red-800"
    case _ => "bg-gray-100 text-gray-800"
  }

  /** Every status outside the four gets the gray badge, and the four get four different non-gray badges. */
  lemma StatusBadges(s: string, t: string)
    ensures s !in Statuses ==> StatusBadgeClass(s) == "bg-gray-100 text-gray-800"
    ensures s in Statuses ==> StatusBadgeClass(s) != "bg-gray-100 text-gray-800"
    ensures s in Statuses && t in Statuses && s != t ==> StatusBadgeClass(s) != StatusBadgeClass(t)
  {
  }

  /** The card footer: a manage button on the viewer's own job, otherwise the apply button. */
  datatype CardAction = ManageJob | ApplyButton(disabled: bool, caption: string)

  function CardActionFor(job: Job, userId: Option<string>): CardAction
  {
    if userId == Some(job.clientId) then ManageJob
    else ApplyButton(job.status != "open", if job.status == "open" then "Apply for Job" else "Not Available")
  }

  /**
   * The viewer's own job offers "Manage Job"; any other job's button is disabled exactly when the
   * job is not open, and exactly then reads "Not Available".
   */
  lemma CardActionRule(job: Job, userId: Option<string>)
    ensures CardActionFor(job, userId).ManageJob? <==> userId == Some(job.clientId)
    ensures CardActionFor(job, userId).ApplyButton? ==>
      (CardActionFor(job, userId).disabled <==> job.status != "open") &&
      (CardActionFor(job, userId).disabled <==> CardActionFor(job, userId).caption == "Not Available")
  {
  }

  /** The poster's name attached to a job: a missing or empty full name becomes null. */
  function ClientName(fullName: Option<string>): (r: Option<string>)
    ensures r.Some? ==> r.value != "" && r == fullName
    ensures Truthy(fullName) ==> r == fullName
  {
    if Truthy(fullName) then fullName else None
  }

  /** "Posted by" shows the attached name, or "Anonymous" when there is none. */
  function PostedBy(job: Job): (r: string)
    ensures r != ""
    ensures r == "Anonymous" || Some(r) == job.clientName
    ensures !Truthy(job.clientName) ==> r == "Anonymous"
    ensures Truthy(job.clientName) ==> r == job.clientName.value
  {
    if Truthy(job.clientName) then job.clientName.value else "Anonymous"
  }

  // ----- Applying for a job -----

  /** What applying does: the worker-row lookup it issues (by user id), the toast, and where it navigates. */
  datatype ApplyOutcome = ApplyOutcome(workerLookup: Option<string>, toast: Toast, navigateTo: Option<string>)

  const AuthRequiredToast := Toast("Authentication required", "Please log in to apply for this job", true)
  const WorkerRequiredToast := Toast("Worker profile required", "You need to register as a worker to apply for jobs", true)
  const ApplicationSentToast := Toast("Application sent", "Your interest has been registered for this job", false)

  /** `reply` is what the store answers to the worker-row lookup, should the lookup be issued. */
  function ApplyForJob<R>(userId: Option<string>, reply: SingleReply<R>): ApplyOutcome
  {
    if !Truthy(userId) then ApplyOutcome(None, AuthRequiredToast, Some("/auth"))
    else if reply.errorCode.Some? || reply.data.None? then ApplyOutcome(Some(userId.value), WorkerRequiredToast, Some("/profile"))
    else ApplyOutcome(Some(userId.value), ApplicationSentToast, None)
  }

  /**
   * Without a user, applying redirects to /auth and issues no lookup, whatever the store would say;
   * with one, it looks up that user's worker row, a missing row or an error redirects to /profile,
   * and only a found row gives the success toast (and no navigation). Nothing changes the job.
   */
  lemma ApplyGuardOrder<R>(userId: Option<string>, reply: SingleReply<R>, other: SingleReply<R>)
    ensures var o := ApplyForJob(userId, reply);
      && (o.workerLookup.None? <==> !Truthy(userId))
      && (!Truthy(userId) ==> o == ApplyForJob(userId, other) && o.navigateTo == Some("/auth"))
      && (Truthy(userId) ==> o.workerLookup == userId)
      && (o.toast == ApplicationSentToast <==> Truthy(userId) && reply.data.Some? && reply.errorCode.None?)
      && (o.toast == ApplicationSentToast <==> o.navigateTo.None?)
      && (Truthy(userId) && (reply.data.None? || reply.errorCode.Some?) ==> o.navigateTo == Some("/profile"))
  {
  }
}
