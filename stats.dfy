/** The statistics card (src/components/JobStats.tsx): the status
    distribution behind the pie chart and the four weekly buckets behind the
    bar chart. */
module Stats {
  import opened Job
  import opened Seqs

  // ----- Status distribution -----

  /** The number of records with status `s`, the reference the fold is
      measured against. */
  function CountStatus(apps: seq<JobApplication>, s: JobStatus): nat
  {
    |Filter(apps, (a: JobApplication) => a.status == s)|
  }

  /** The accumulator the `reduce` starts from: all five statuses at zero. */
  const INITIAL_COUNTS: map<JobStatus, nat> :=
    map[Applied := 0, Interviewing := 0, Offer := 0, Rejected := 0, FollowUp := 0]

  /** Every status has an entry in the initial accumulator, and it is zero. */
  lemma InitialCountsComplete()
    ensures forall s: JobStatus :: s in INITIAL_COUNTS && INITIAL_COUNTS[s] == 0
  {
    forall s: JobStatus
      ensures s in INITIAL_COUNTS && INITIAL_COUNTS[s] == 0
    {
      match s
      case Applied =>
      case Interviewing =>
      case Offer =>
      case Rejected =>
      case FollowUp =>
    }
  }

  /** The `reduce` step by step: each record adds one to its status's entry
      (`(acc[status] || 0) + 1`). Every entry ends as its start value plus the
      number of records with that status. */
  function Tally(acc: map<JobStatus, nat>, apps: seq<JobApplication>): (r: map<JobStatus, nat>)
    ensures forall s :: s in acc ==> s in r
    ensures forall s :: s in r ==> r[s] == (if s in acc then acc[s] else 0) + CountStatus(apps, s)
    decreases |apps|
  {
    if apps == [] then acc
    else
      var s := apps[0].status;
      Tally(acc[s := (if s in acc then acc[s] else 0) + 1], apps[1..])
  }

  /** `statusCounts`: every status is a key, zero-count ones included, and
      each entry is the number of records with that status. */
  function StatusCounts(apps: seq<JobApplication>): (r: map<JobStatus, nat>)
    ensures forall s: JobStatus :: s in r && r[s] == CountStatus(apps, s)
  {
    InitialCountsComplete();
    Tally(INITIAL_COUNTS, apps)
  }

  /** The five counts add up to the size of the collection. */
  lemma {:induction false} StatusCountsSum(apps: seq<JobApplication>)
    ensures CountStatus(apps, Applied) + CountStatus(apps, Interviewing) + CountStatus(apps, Offer)
            + CountStatus(apps, Rejected) + CountStatus(apps, FollowUp) == |apps|
  {
    if apps != [] {
      StatusCountsSum(apps[1..]);
    }
  }

  /** One slice of the pie chart. */
  datatype PieSlice = PieSlice(name: string, value: nat)

  /** `pieData`: one slice per status, in the order the statuses were put in
      the accumulator, each holding the number of records with that status. */
  function PieData(apps: seq<JobApplication>): (r: seq<PieSlice>)
    ensures |r| == 5
    ensures forall i :: 0 <= i < 5 ==>
      r[i].name == StatusName(ALL_STATUSES[i]) && r[i].value == CountStatus(apps, ALL_STATUSES[i])
  {
    var counts := StatusCounts(apps);
    seq(5, i requires 0 <= i < 5 => PieSlice(StatusName(ALL_STATUSES[i]), counts[ALL_STATUSES[i]]))
  }

  /** The slices add up to the size of the collection. */
  lemma PieDataTotal(apps: seq<JobApplication>)
    ensures var r := PieData(apps);
      r[0].value + r[1].value + r[2].value + r[3].value + r[4].value == |apps|
  {
    StatusCountsSum(apps);
  }

  // ----- Weekly timeline -----

  /** `appDate >= startDate && appDate <= endDate`. */
  predicate InWindow(d: Instant, start: Instant, end: Instant)
  {
    start <= d && d <= end
  }

  /** The number of records applied within the window, `filter(...).length`. */
  function CountInWindow(apps: seq<JobApplication>, start: Instant, end: Instant): nat
  {
    |Filter(apps, (a: JobApplication) => InWindow(a.dateApplied, start, end))|
  }

  /** Counting a non-empty collection: its first record, then the rest. */
  lemma CountInWindowFirst(apps: seq<JobApplication>, start: Instant, end: Instant)
    requires apps != []
    ensures CountInWindow(apps, start, end)
      == (if InWindow(apps[0].dateApplied, start, end) then 1 else 0) + CountInWindow(apps[1..], start, end)
  {
  }

  /** One bar of the timeline; the window bounds stand for its tooltip. */
  datatype WeekBucket = WeekBucket(name: string, count: nat, start: Instant, end: Instant)

  /** "Week n" for a one-digit n. */
  function WeekName(n: nat): string
    requires 1 <= n <= 9
  {
    "Week " + [('0' as int + n) as char]
  }

  /** The number of records the four bars show together. */
  function Total(buckets: seq<WeekBucket>): nat
    requires |buckets| == 4
  {
    buckets[0].count + buckets[1].count + buckets[2].count + buckets[3].count
  }

  /** The bucket built for index `i` of `Array.from({ length: 4 }, ...)`: it
      ends `7 * i` days before now and starts six days before its end. */
  function WeekEnding(apps: seq<JobApplication>, today: Instant, i: nat): WeekBucket
    requires i < 4
  {
    var end := SubDays(today, i * 7);
    var start := SubDays(end, 6);
    WeekBucket(WeekName(4 - i), CountInWindow(apps, start, end), start, end)
  }

  /** `last4Weeks`: four buckets, oldest first after the `reverse`, named
      "Week 1" to "Week 4"; bucket `j` covers the inclusive window that ends
      `7 * (3 - j)` days before now and starts six days before that. */
  function Last4Weeks(apps: seq<JobApplication>, today: Instant): (r: seq<WeekBucket>)
    ensures |r| == 4
    ensures forall j :: 0 <= j < 4 ==>
      && r[j].name == WeekName(j + 1)
      && r[j].end == today - 7 * (3 - j) * DAY
      && r[j].start == r[j].end - 6 * DAY
      && r[j].count == CountInWindow(apps, r[j].start, r[j].end)
  {
    [WeekEnding(apps, today, 3), WeekEnding(apps, today, 2),
     WeekEnding(apps, today, 1), WeekEnding(apps, today, 0)]
  }

  /** No instant lies in two different windows. */
  lemma WeeksDisjoint(apps: seq<JobApplication>, today: Instant, j: nat, k: nat, d: Instant)
    requires j < k < 4
    ensures var r := Last4Weeks(apps, today);
      !(InWindow(d, r[j].start, r[j].end) && InWindow(d, r[k].start, r[k].end))
  {
  }

  /** A record applied after now, or more than 27 days before now, is in no
      window; `fourWeeksAgo` (28 days) is computed by the source but unused. */
  lemma OutsideAllWeeks(apps: seq<JobApplication>, today: Instant, d: Instant)
    requires d > today || d < today - 27 * DAY
    ensures forall j :: 0 <= j < 4 ==>
      !InWindow(d, Last4Weeks(apps, today)[j].start, Last4Weeks(apps, today)[j].end)
  {
  }

  /** 1 when the instant lies in the window, 0 otherwise. */
  function Hit(d: Instant, start: Instant, end: Instant): nat
  {
    if InWindow(d, start, end) then 1 else 0
  }

  /** Each bucket count of a non-empty collection is its first record's hit
      plus the count over the rest. */
  lemma {:induction false} WeeksFirst(apps: seq<JobApplication>, buckets: seq<WeekBucket>, rest: seq<WeekBucket>)
    requires apps != [] && |buckets| == |rest| == 4
    requires forall j :: 0 <= j < 4 ==> buckets[j].start == rest[j].start && buckets[j].end == rest[j].end
    requires forall j :: 0 <= j < 4 ==> buckets[j].count == CountInWindow(apps, buckets[j].start, buckets[j].end)
    requires forall j :: 0 <= j < 4 ==> rest[j].count == CountInWindow(apps[1..], rest[j].start, rest[j].end)
    ensures Total(buckets) == Total(rest)
      + Hit(apps[0].dateApplied, buckets[0].start, buckets[0].end) + Hit(apps[0].dateApplied, buckets[1].start, buckets[1].end)
      + Hit(apps[0].dateApplied, buckets[2].start, buckets[2].end) + Hit(apps[0].dateApplied, buckets[3].start, buckets[3].end)
  {
  }

  /** Since the windows are disjoint, no record is counted twice: the four
      counts add up to at most the size of the collection. */
  lemma {:induction false} Last4WeeksTotal(apps: seq<JobApplication>, today: Instant)
    ensures Total(Last4Weeks(apps, today)) <= |apps|
  {
    if apps != [] {
      Last4WeeksTotal(apps[1..], today);
      var r, r' := Last4Weeks(apps, today), Last4Weeks(apps[1..], today);
      WeeksFirst(apps, r, r');
      var d := apps[0].dateApplied;
      assert r[0].start == today - 27 * DAY && r[0].end == today - 21 * DAY;
      assert r[1].start == today - 20 * DAY && r[1].end == today - 14 * DAY;
      assert r[2].start == today - 13 * DAY && r[2].end == today - 7 * DAY;
      assert r[3].start == today - 6 * DAY && r[3].end == today;
    }
  }

  /** A record applied six days and one millisecond before now lies between
      the first and the second window, so adding it changes no count, though
      it was applied within the last week. */
  lemma {:induction false} GapIsUncounted(apps: seq<JobApplication>, today: Instant, a: JobApplication)
    requires a.dateApplied == today - 6 * DAY - 1
    ensures forall j :: 0 <= j < 4 ==>
      Last4Weeks(apps + [a], today)[j].count == Last4Weeks(apps, today)[j].count
  {
    forall j | 0 <= j < 4
      ensures Last4Weeks(apps + [a], today)[j].count == Last4Weeks(apps, today)[j].count
    {
      var w := Last4Weeks(apps, today)[j];
      FilterConcat(apps, [a], (x: JobApplication) => InWindow(x.dateApplied, w.start, w.end));
      assert [a][1..] == [];
    }
  }

  /** The buckets as evidently intended: contiguous windows of seven days,
      each `(end - 7 days, end]`, so that together they cover the last 28
      days exactly. */
  function ContiguousWeeks(apps: seq<JobApplication>, today: Instant): (r: seq<WeekBucket>)
    ensures |r| == 4
    ensures forall j :: 0 <= j < 4 ==>
      && r[j].name == WeekName(j + 1)
      && r[j].end == today - 7 * (3 - j) * DAY
      && r[j].start == r[j].end - 7 * DAY + 1
      && r[j].count == CountInWindow(apps, r[j].start, r[j].end)
  {
    seq(4, j requires 0 <= j < 4 =>
      var end := SubDays(today, (3 - j) * 7);
      var start := SubDays(end, 7) + 1;
      WeekBucket(WeekName(j + 1), CountInWindow(apps, start, end), start, end))
  }

  /** Every record applied in the last 28 days is counted exactly once by the
      contiguous buckets, and no other record is counted. */
  lemma {:induction false} ContiguousWeeksCoverAll(apps: seq<JobApplication>, today: Instant)
    ensures Total(ContiguousWeeks(apps, today)) == CountInWindow(apps, today - 28 * DAY + 1, today)
  {
    if apps != [] {
      ContiguousWeeksCoverAll(apps[1..], today);
      var r, r' := ContiguousWeeks(apps, today), ContiguousWeeks(apps[1..], today);
      WeeksFirst(apps, r, r');
      CountInWindowFirst(apps, today - 28 * DAY + 1, today);
      assert r[0].start == today - 28 * DAY + 1 && r[0].end == today - 21 * DAY;
      assert r[1].start == today - 21 * DAY + 1 && r[1].end == today - 14 * DAY;
      assert r[2].start == today - 14 * DAY + 1 && r[2].end == today - 7 * DAY;
      assert r[3].start == today - 7 * DAY + 1 && r[3].end == today;
    }
  }

  // ----- The card -----

  /** What the statistics card shows: a prompt when there are no records,
      otherwise the two charts. */
  datatype StatsView =
    | Placeholder
    | Charts(pie: seq<PieSlice>, weeks: seq<WeekBucket>)

  /** The card shows the prompt exactly for an empty collection; otherwise it
      shows five pie slices and four weekly bars. */
  function Render(apps: seq<JobApplication>, today: Instant): (v: StatsView)
    ensures v.Placeholder? <==> apps == []
    ensures v.Charts? ==> |v.pie| == 5 && |v.weeks| == 4
    ensures v.Charts? ==> v.pie == PieData(apps) && v.weeks == Last4Weeks(apps, today)
  {
    if |apps| == 0 then Placeholder
    else Charts(PieData(apps), Last4Weeks(apps, today))
  }
}
