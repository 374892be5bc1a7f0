/** The job-application record (src/types/job.ts) and the date arithmetic the
    components use, with instants as whole milliseconds. */
module Job {

  /** A point in time, in milliseconds; ISO-8601 strings are parsed to these. */
  type Instant = int

  /** One day in milliseconds; `addDays`/`subDays` shift by whole days. */
  const DAY: int := 86_400_000

  /** `addDays(t, n)` with a fixed-length day. */
  function AddDays(t: Instant, n: int): Instant { t + n * DAY }

  /** `subDays(t, n)` with a fixed-length day. */
  function SubDays(t: Instant, n: int): Instant { t - n * DAY }

  /** `isBefore(a, b)`: `a` is strictly earlier than `b`. */
  predicate IsBefore(a: Instant, b: Instant) { a < b }

  /** An optional record field, `undefined` when absent. */
  datatype Option<+T> = None | Some(value: T)

  /** The five statuses an application can be in. */
  datatype JobStatus = Applied | Interviewing | Offer | Rejected | FollowUp

  /** The statuses in the order the source declares them. */
  const ALL_STATUSES: seq<JobStatus> := [Applied, Interviewing, Offer, Rejected, FollowUp]

  /** The string literal each status has in the source. */
  function StatusName(s: JobStatus): string
  {
    match s
    case Applied => "Applied"
    case Interviewing => "Interviewing"
    case Offer => "Offer"
    case Rejected => "Rejected"
    case FollowUp => "Follow-up"
  }

  /** Every status occurs in ALL_STATUSES exactly once, and the names tell the
      statuses apart. */
  lemma StatusesEnumerated()
    ensures |ALL_STATUSES| == 5
    ensures forall s: JobStatus :: s in ALL_STATUSES
    ensures forall i, j :: 0 <= i < j < 5 ==> ALL_STATUSES[i] != ALL_STATUSES[j]
    ensures forall s, t: JobStatus :: StatusName(s) == StatusName(t) ==> s == t
  {
    forall s: JobStatus
      ensures s in ALL_STATUSES
    {
      match s
      case Applied => assert ALL_STATUSES[0] == s;
      case Interviewing => assert ALL_STATUSES[1] == s;
      case Offer => assert ALL_STATUSES[2] == s;
      case Rejected => assert ALL_STATUSES[3] == s;
      case FollowUp => assert ALL_STATUSES[4] == s;
    }
  }

  /** One tracked application. */
  datatype JobApplication = JobApplication(
    id: string,
    companyName: string,
    role: string,
    dateApplied: Instant,
    status: JobStatus,
    followUpDate: Option<Instant>,
    notes: Option<string>)

  /** No two records of the collection share an id. */
  predicate UniqueIds(apps: seq<JobApplication>)
  {
    forall i, j :: 0 <= i < j < |apps| ==> apps[i].id != apps[j].id
  }

  /** Some record of the collection carries `id`. */
  predicate HasId(apps: seq<JobApplication>, id: string)
  {
    exists i :: 0 <= i < |apps| && apps[i].id == id
  }
}
