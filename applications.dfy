/**
 * The applications page: status updates, the favourite toggle, the status
 * filter with the case-insensitive search, and the per-status counts.
 */
module Applications {
  import opened Jobs
  import opened Text
  import opened Lists

  /**
   * `handleUpdateStatus(id, status)`: exactly the applications whose id is
   * `id` take the new status; nothing else changes.
   */
  function UpdateStatus(apps: seq<Job>, id: int, status: JobStatus): (r: seq<Job>)
    ensures |r| == |apps|
    ensures forall i :: 0 <= i < |apps| ==> r[i].(status := apps[i].status) == apps[i]
    ensures forall i :: 0 <= i < |apps| && apps[i].id == id ==> r[i].status == status
    ensures forall i :: 0 <= i < |apps| && apps[i].id != id ==> r[i] == apps[i]
  {
    seq(|apps|, i requires 0 <= i < |apps| => if apps[i].id == id then apps[i].(status := status) else apps[i])
  }

  /** A later status update of the same id overrides an earlier one. */
  lemma {:induction false} UpdateStatusOverrides(apps: seq<Job>, id: int, s1: JobStatus, s2: JobStatus)
    ensures UpdateStatus(UpdateStatus(apps, id, s1), id, s2) == UpdateStatus(apps, id, s2)
  {
    var a := UpdateStatus(UpdateStatus(apps, id, s1), id, s2);
    var b := UpdateStatus(apps, id, s2);
    forall i | 0 <= i < |apps| ensures a[i] == b[i] {
      assert UpdateStatus(apps, id, s1)[i].id == apps[i].id;
    }
  }

  /** The page's `handleToggleFavorite` is the job search's. */
  function ToggleFavorite(apps: seq<Job>, id: int): (r: seq<Job>)
    ensures r == Jobs.ToggleFavorite(apps, id)
    ensures Jobs.ToggleFavorite(r, id) == apps
  {
    ToggleFavoriteTwice(apps, id);
    Jobs.ToggleFavorite(apps, id)
  }

  /** `activeFilter`: `'all'`, or one of the five statuses. */
  datatype StatusFilter = Everything | Only(status: JobStatus)

  predicate PassesStatus(f: StatusFilter, app: Job) {
    f.Everything? || app.status == f.status
  }

  /** The search predicate as written, including its `searchTerm === ''` shortcut. */
  predicate MatchesSearch(term: string, app: Job) {
    term == "" || Contains(Lower(app.title), Lower(term)) || Contains(Lower(app.company), Lower(term))
  }

  /** `filteredApplications`: the status filter, then the search. */
  function FilteredApplications(apps: seq<Job>, f: StatusFilter, term: string): (r: seq<Job>)
    ensures |r| <= |apps|
    ensures forall a :: a in r <==> a in apps && PassesStatus(f, a) && MatchesSearch(term, a)
    ensures |r| == Count(apps, a => PassesStatus(f, a) && MatchesSearch(term, a))
  {
    var both := a => PassesStatus(f, a) && MatchesSearch(term, a);
    FilterFilter(apps, a => PassesStatus(f, a), a => MatchesSearch(term, a), both);
    FilterIsSubsequence(apps, both);
    Filter(Filter(apps, a => PassesStatus(f, a)), a => MatchesSearch(term, a))
  }

  /** The filtered list is the applications list with some entries left out, in the original order. */
  lemma FilteredIsSubsequence(apps: seq<Job>, f: StatusFilter, term: string)
    ensures IsSubsequence(FilteredApplications(apps, f, term), apps)
    ensures |FilteredApplications(apps, f, term)| == Count(apps, a => PassesStatus(f, a) && MatchesSearch(term, a))
  {
    var both := a => PassesStatus(f, a) && MatchesSearch(term, a);
    FilterFilter(apps, a => PassesStatus(f, a), a => MatchesSearch(term, a), both);
    FilterIsSubsequence(apps, both);
  }

  /** With `'all'` and an empty search term the page lists every application. */
  lemma {:induction false} NoFilterKeepsAll(apps: seq<Job>)
    ensures FilteredApplications(apps, Everything, "") == apps
  {
    FilterAll(apps, a => PassesStatus(Everything, a));
    FilterAll(apps, a => MatchesSearch("", a));
  }

  /** A status filter keeps exactly the entries with that status, and as many as there are. */
  lemma StatusFilterCount(apps: seq<Job>, s: JobStatus)
    ensures |FilteredApplications(apps, Only(s), "")| == CountStatus(apps, s)
  {
    FilterAll(Filter(apps, a => PassesStatus(Only(s), a)), a => MatchesSearch("", a));
    FilterIsSubsequence(apps, a => PassesStatus(Only(s), a));
    CountIsCountStatus(apps, s);
  }

  /** The empty-term shortcut changes nothing: every title includes "". */
  lemma EmptyTermShortcutRedundant(term: string, app: Job)
    ensures MatchesSearch(term, app) <==>
      Contains(Lower(app.title), Lower(term)) || Contains(Lower(app.company), Lower(term))
  {
    if term == "" {
      assert Lower(term) == "";
      ContainsEmpty(Lower(app.title));
    }
  }

  /** The search ignores the case of the term. */
  lemma SearchIgnoresTermCase(term: string, app: Job)
    ensures MatchesSearch(Lower(term), app) <==> MatchesSearch(term, app)
  {
    LowerIdempotent(term);
    EmptyTermShortcutRedundant(term, app);
    EmptyTermShortcutRedundant(Lower(term), app);
  }

  /** The number of applications with status `s`, counted from the back as the fold adds them. */
  function CountStatus(apps: seq<Job>, s: JobStatus): nat {
    if apps == [] then 0
    else CountStatus(apps[..|apps| - 1], s) + (if apps[|apps| - 1].status == s then 1 else 0)
  }

  lemma {:induction false} CountIsCountStatus(apps: seq<Job>, s: JobStatus)
    ensures Count(apps, a => PassesStatus(Only(s), a)) == CountStatus(apps, s)
  {
    if apps != [] {
      var init := apps[..|apps| - 1];
      assert apps == init + [apps[|apps| - 1]];
      CountAppend(init, [apps[|apps| - 1]], a => PassesStatus(Only(s), a));
      assert Count([apps[|apps| - 1]], a => PassesStatus(Only(s), a)) == (if apps[|apps| - 1].status == s then 1 else 0);
      CountIsCountStatus(init, s);
    }
  }

  /** `statusCounts[status] || 0`: a status no application has shows 0. */
  function Shown(counts: map<JobStatus, nat>, s: JobStatus): nat {
    if s in counts then counts[s] else 0
  }

  /**
   * `statusCounts`: one pass over the applications, adding one to the entry of
   * each application's status. A status is a key exactly when some
   * application has it.
   */
  method StatusCounts(apps: seq<Job>) returns (counts: map<JobStatus, nat>)
    ensures forall s :: Shown(counts, s) == CountStatus(apps, s)
    ensures forall s :: s in counts <==> CountStatus(apps, s) > 0
  {
    counts := map[];
    var i := 0;
    while i < |apps|
      invariant 0 <= i <= |apps|
      invariant forall s :: Shown(counts, s) == CountStatus(apps[..i], s)
      invariant forall s :: s in counts <==> CountStatus(apps[..i], s) > 0
    {
      var status := apps[i].status;
      counts := counts[status := Shown(counts, status) + 1];
      assert apps[..i + 1][..i] == apps[..i];
      i := i + 1;
    }
    assert apps[..i] == apps;
  }

  /** The per-status sum, in button order. */
  function CountsTotal(apps: seq<Job>): nat {
    CountStatus(apps, Saved) + CountStatus(apps, Applied) + CountStatus(apps, Interview)
      + CountStatus(apps, Offer) + CountStatus(apps, Rejected)
  }

  /** The five status buttons' counts add up to the "All" button's `applications.length`. */
  lemma {:induction false} CountsSumToLength(apps: seq<Job>)
    ensures CountsTotal(apps) == |apps|
  {
    if apps != [] {
      CountsSumToLength(apps[..|apps| - 1]);
    }
  }
}
