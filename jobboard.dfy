/** The dashboard: the list of job applications, deletion by id, and the status badges. */
module JobBoard {
  import opened Wrappers
  import opened Types
  import Discord

  /** One application card. */
  datatype Job = Job(
    id: int,
    company: string,
    position: string,
    status: string,
    lastUpdated: string,
    location: string,
    salary: string)

  const AppliedClass := "bg-blue-100 text-blue-800"
  const InterviewClass := "bg-yellow-100 text-yellow-800"
  const OfferClass := "bg-green-100 text-green-800"
  const RejectedClass := "bg-red-100 text-red-800"
  const DefaultClass := "bg-gray-100 text-gray-800"

  /** The sentinel the backend stores in `discord_webhook` when no webhook is set. */
  const NoWebhookSentinel := "NULL"

  /** `jobs.filter(job => job.id !== id)`: no job with that id is left, and every job kept was there. */
  function Without(jobs: seq<Job>, id: int): (r: seq<Job>)
    ensures |r| <= |jobs|
    ensures forall k :: 0 <= k < |r| ==> r[k].id != id && r[k] in jobs
  {
    if |jobs| == 0 then []
    else if jobs[0].id != id then [jobs[0]] + Without(jobs[1..], id)
    else Without(jobs[1..], id)
  }

  /** Filtering splits over concatenation: what is kept stays in its original relative order. */
  lemma {:induction false} WithoutAppend(a: seq<Job>, b: seq<Job>, id: int)
    ensures Without(a + b, id) == Without(a, id) + Without(b, id)
    decreases |a|
  {
    if |a| == 0 {
      assert a + b == b;
    } else {
      assert (a + b)[1..] == a[1..] + b;
      WithoutAppend(a[1..], b, id);
    }
  }

  /** A single job is kept exactly when its id differs. */
  lemma WithoutSingle(j: Job, id: int)
    ensures Without([j], id) == if j.id == id then [] else [j]
  {
  }

  /** Every job with another id is kept, as many times as it occurred. */
  lemma {:induction false} WithoutKeepsOthers(jobs: seq<Job>, id: int, j: Job)
    requires j.id != id
    ensures multiset(Without(jobs, id))[j] == multiset(jobs)[j]
    decreases |jobs|
  {
    if |jobs| > 0 {
      assert jobs == [jobs[0]] + jobs[1..];
      WithoutKeepsOthers(jobs[1..], id, j);
    }
  }

  /** Deleting an id no job has leaves the list as it was. */
  lemma {:induction false} WithoutAbsent(jobs: seq<Job>, id: int)
    requires forall k :: 0 <= k < |jobs| ==> jobs[k].id != id
    ensures Without(jobs, id) == jobs
    decreases |jobs|
  {
    if |jobs| > 0 {
      WithoutAbsent(jobs[1..], id);
      assert jobs == [jobs[0]] + jobs[1..];
    }
  }

  /** Deleting the same id twice is deleting it once. */
  lemma WithoutIdempotent(jobs: seq<Job>, id: int)
    ensures Without(Without(jobs, id), id) == Without(jobs, id)
  {
    WithoutAbsent(Without(jobs, id), id);
  }

  /** The empty-state message. */
  predicate ShowsEmptyState(jobs: seq<Job>) {
    |jobs| == 0
  }

  /** A deletion empties the board exactly when every job had the deleted id. */
  lemma {:induction false} DeleteEmptiesBoard(jobs: seq<Job>, id: int)
    ensures ShowsEmptyState(Without(jobs, id)) <==> forall k :: 0 <= k < |jobs| ==> jobs[k].id == id
    decreases |jobs|
  {
    if |jobs| > 0 {
      DeleteEmptiesBoard(jobs[1..], id);
      assert forall k :: 1 <= k < |jobs| ==> jobs[k] == jobs[1..][k - 1];
    }
  }

  /** The badge class of a status: the first of the four listed statuses it equals, else gray. */
  function StatusClass(names: EnumValues, status: string): (cls: string)
    ensures status == names.applied ==> cls == AppliedClass
    ensures status != names.applied && status == names.interviewScheduled ==> cls == InterviewClass
    ensures status !in [names.applied, names.interviewScheduled] && status == names.offer ==> cls == OfferClass
    ensures status !in [names.applied, names.interviewScheduled, names.offer] && status == names.rejected ==>
      cls == RejectedClass
    ensures cls == DefaultClass <==>
      status !in [names.applied, names.interviewScheduled, names.offer, names.rejected]
  {
    if status == names.applied then AppliedClass
    else if status == names.interviewScheduled then InterviewClass
    else if status == names.offer then OfferClass
    else if status == names.rejected then RejectedClass
    else DefaultClass
  }

  /** The banner asking for a webhook: shown exactly when the profile's webhook is the sentinel. */
  predicate ShowsNoWebhookBanner(user: Option<User>) {
    user.Some? && user.value.discordWebhook == NoWebhookSentinel
  }

  /** The sentinel is a non-empty string, so the Discord screen counts it as a saved webhook
      while the dashboard shows the banner asking for one. */
  lemma SentinelCountsAsWebhook(u: User)
    requires ShowsNoWebhookBanner(Some(u))
    ensures Discord.HasWebhook(u)
  {
  }

  class Dashboard {
    var jobApplications: seq<Job>

    /** The component starts with three sample applications, ids 1 to 3. */
    constructor ()
      ensures |jobApplications| == 3
      ensures forall k :: 0 <= k < 3 ==> jobApplications[k].id == k + 1
    {
      jobApplications := [
        Job(1, "Tech Solutions Inc.", "Frontend Developer", "Applied", "2025-04-05", "Remote",
            "$90,000 - $120,000"),
        Job(2, "DataViz Corporation", "UI/UX Designer", "Interview Scheduled", "2025-04-03",
            "New York, NY", "$85,000 - $110,000"),
        Job(3, "CloudNet Systems", "React Developer", "Rejected", "2025-03-28",
            "San Francisco, CA", "$110,000 - $140,000")];
    }

    /** `handleDelete`: the list is replaced by its filter. */
    method HandleDelete(id: int)
      modifies this
      ensures jobApplications == Without(old(jobApplications), id)
    {
      jobApplications := Without(jobApplications, id);
    }
  }
}
