/**
 * The job record both the job search and the applications page list, and the
 * favourite toggle they share.
 */
module Jobs {
  import opened Wrappers

  datatype JobStatus = Saved | Applied | Interview | Offer | Rejected

  /** The statuses in the order the applications page lists its filter buttons. */
  const AllStatuses: seq<JobStatus> := [Saved, Applied, Interview, Offer, Rejected]

  function StatusName(s: JobStatus): string {
    match s
    case Saved => "saved"
    case Applied => "applied"
    case Interview => "interview"
    case Offer => "offer"
    case Rejected => "rejected"
  }

  lemma AllStatusesListsEach(s: JobStatus)
    ensures s in AllStatuses
  {
  }

  /** A listed job; `matchScore` is the optional `match` percentage. */
  datatype Job = Job(
    id: int,
    title: string,
    company: string,
    location: string,
    salary: Option<string>,
    matchScore: Option<int>,
    description: Option<string>,
    status: JobStatus,
    appliedDate: Option<string>,
    favorite: bool)

  /**
   * `handleToggleFavorite(id)`: every job keeps every field but `favorite`,
   * which flips exactly for the jobs whose id is `id`; length and order stay.
   */
  function ToggleFavorite(jobs: seq<Job>, id: int): (r: seq<Job>)
    ensures |r| == |jobs|
    ensures forall i :: 0 <= i < |jobs| ==> r[i].(favorite := jobs[i].favorite) == jobs[i]
    ensures forall i :: 0 <= i < |jobs| ==> (r[i].favorite != jobs[i].favorite <==> jobs[i].id == id)
  {
    seq(|jobs|, i requires 0 <= i < |jobs| =>
      if jobs[i].id == id then jobs[i].(favorite := !jobs[i].favorite) else jobs[i])
  }

  /** Toggling the same id twice restores the list. */
  lemma {:induction false} ToggleFavoriteTwice(jobs: seq<Job>, id: int)
    ensures ToggleFavorite(ToggleFavorite(jobs, id), id) == jobs
  {
    var once := ToggleFavorite(jobs, id);
    var twice := ToggleFavorite(once, id);
    forall i | 0 <= i < |jobs| ensures twice[i] == jobs[i] {
      assert once[i].id == jobs[i].id;
    }
  }

  /** Toggles of different ids commute. */
  lemma ToggleFavoriteCommutes(jobs: seq<Job>, id: int, id': int)
    ensures ToggleFavorite(ToggleFavorite(jobs, id), id') == ToggleFavorite(ToggleFavorite(jobs, id'), id)
  {
    var a := ToggleFavorite(ToggleFavorite(jobs, id), id');
    var b := ToggleFavorite(ToggleFavorite(jobs, id'), id);
    forall i | 0 <= i < |jobs| ensures a[i] == b[i] {
      assert ToggleFavorite(jobs, id)[i].id == jobs[i].id;
      assert ToggleFavorite(jobs, id')[i].id == jobs[i].id;
    }
  }
}
