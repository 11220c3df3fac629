/**
 * The values the Dashboard page derives from its job list on every render:
 * the filtered and searched list of job cards, the status counts, the
 * chart series and stat tiles built from them, and the badge colour of a
 * status.
 */
module Dashboard {
  import opened Text
  import opened Seqs

  /** A job record as the server returns it: `{_id, company, role, status}`. */
  datatype Job = Job(id: string, company: string, role: string, status: string)

  const AllFilter: string := "All"
  const Applied: string := "Applied"
  const Interview: string := "Interview"
  const Offer: string := "Offer"
  const Rejected: string := "Rejected"

  /** The four statuses, in the order the chart and the select list use. */
  const StatusNames: seq<string> := [Applied, Interview, Offer, Rejected]

  predicate IsKnownStatus(status: string) {
    status == Applied || status == Interview || status == Offer || status == Rejected
  }

  // ---------------------------------------------------------------------
  // Filter and search

  /** The status test of the first `filter` call. */
  predicate StatusMatches(filter: string, job: Job) {
    filter == AllFilter || job.status == filter
  }

  /** The search test of the second `filter` call, on an already lower-cased needle. */
  predicate CompanyContains(needle: string, job: Job) {
    Includes(Lower(job.company), needle)
  }

  /** Whether a job card is shown for the given filter and search text. */
  predicate Visible(filter: string, search: string, job: Job) {
    StatusMatches(filter, job) && CompanyContains(Lower(search), job)
  }

  function StatusTest(filter: string): Job -> bool {
    job => StatusMatches(filter, job)
  }

  function ContainsTest(needle: string): Job -> bool {
    job => CompanyContains(needle, job)
  }

  function VisibleTest(filter: string, search: string): Job -> bool {
    job => Visible(filter, search, job)
  }

  /**
   * `filteredJobs`: the jobs whose status matches the filter (or the filter
   * is "All") and whose lower-cased company name contains the lower-cased
   * search text.
   */
  function FilteredJobs(jobs: seq<Job>, filter: string, search: string): (r: seq<Job>)
    ensures |r| <= |jobs|
    ensures forall job :: job in r <==>
      job in jobs && (filter == AllFilter || job.status == filter)
      && Includes(Lower(job.company), Lower(search))
  {
    Filter(Filter(jobs, StatusTest(filter)), ContainsTest(Lower(search)))
  }

  /** The two chained filters act as one filter by `Visible`. */
  lemma FilteredIsOneFilter(jobs: seq<Job>, filter: string, search: string)
    ensures FilteredJobs(jobs, filter, search) == Filter(jobs, VisibleTest(filter, search))
  {
    FilterFuse(jobs, StatusTest(filter), ContainsTest(Lower(search)), VisibleTest(filter, search));
  }

  /**
   * The shown cards are the jobs at exactly the positions whose job is
   * visible, in the order of `jobs`.
   */
  lemma FilteredKeepsOrder(jobs: seq<Job>, filter: string, search: string)
    ensures Selects(jobs, KeptIndices(jobs, VisibleTest(filter, search)), FilteredJobs(jobs, filter, search))
    ensures forall i :: 0 <= i < |jobs| ==>
      (i in KeptIndices(jobs, VisibleTest(filter, search)) <==> Visible(filter, search, jobs[i]))
  {
    FilteredIsOneFilter(jobs, filter, search);
    FilterSelectsKept(jobs, VisibleTest(filter, search));
  }

  /** With filter "All" and an empty search every job is shown. */
  lemma AllAndEmptySearchShowsEverything(jobs: seq<Job>)
    ensures FilteredJobs(jobs, AllFilter, "") == jobs
  {
    assert Lower("") == "";
    forall job | job in jobs
      ensures Visible(AllFilter, "", job)
    {
      IncludesEmpty(Lower(job.company));
    }
    FilterKeepsAll(jobs, VisibleTest(AllFilter, ""));
    FilteredIsOneFilter(jobs, AllFilter, "");
  }

  /**
   * The search is case-insensitive: two search texts that agree after
   * lower-casing show the same cards.
   */
  lemma SearchIgnoresCase(jobs: seq<Job>, filter: string, s1: string, s2: string)
    requires Lower(s1) == Lower(s2)
    ensures FilteredJobs(jobs, filter, s1) == FilteredJobs(jobs, filter, s2)
  {
  }

  /** In particular, searching for a text and for its lower-cased form agree. */
  lemma SearchLowerCasedAgrees(jobs: seq<Job>, filter: string, search: string)
    ensures FilteredJobs(jobs, filter, Lower(search)) == FilteredJobs(jobs, filter, search)
  {
    LowerIdempotent(search);
  }

  // ---------------------------------------------------------------------
  // Statistics

  function HasStatus(status: string): Job -> bool {
    (job: Job) => job.status == status
  }

  function UnknownStatus(): Job -> bool {
    (job: Job) => !IsKnownStatus(job.status)
  }

  /** `jobs.filter(j => j.status === status).length`. */
  function CountStatus(jobs: seq<Job>, status: string): (r: nat)
    ensures r <= |jobs|
    ensures r == 0 <==> forall job :: job in jobs ==> job.status != status
  {
    var kept := Filter(jobs, HasStatus(status));
    assert kept != [] ==> kept[0] in kept;
    |kept|
  }

  /** The stat values of the page: the total and one count per status. */
  datatype Stats = Stats(total: nat, applied: nat, interview: nat, offer: nat, rejected: nat)

  /** `total`, `applied`, `interview`, `offer`, `rejected`, all over the unfiltered list. */
  function ComputeStats(jobs: seq<Job>): (s: Stats)
    ensures s.total == |jobs|
    ensures s.applied <= s.total && s.interview <= s.total && s.offer <= s.total && s.rejected <= s.total
  {
    Stats(|jobs|, CountStatus(jobs, Applied), CountStatus(jobs, Interview),
          CountStatus(jobs, Offer), CountStatus(jobs, Rejected))
  }

  function CountSum(s: Stats): nat {
    s.applied + s.interview + s.offer + s.rejected
  }

  /** Every job is counted once: under its status, or among the unknown statuses. */
  lemma {:induction false} CountsPartition(jobs: seq<Job>)
    ensures CountSum(ComputeStats(jobs)) + |Filter(jobs, UnknownStatus())| == |jobs|
  {
    if jobs != [] {
      CountsPartition(jobs[1..]);
      FilterLengthStep(jobs, HasStatus(Applied));
      FilterLengthStep(jobs, HasStatus(Interview));
      FilterLengthStep(jobs, HasStatus(Offer));
      FilterLengthStep(jobs, HasStatus(Rejected));
      FilterLengthStep(jobs, UnknownStatus());
    }
  }

  /**
   * The four counts never exceed the total, and they add up to it exactly
   * when every job has one of the four statuses.
   */
  lemma CountsBoundedByTotal(jobs: seq<Job>)
    ensures CountSum(ComputeStats(jobs)) <= ComputeStats(jobs).total
    ensures CountSum(ComputeStats(jobs)) == ComputeStats(jobs).total
            <==> forall job :: job in jobs ==> IsKnownStatus(job.status)
  {
    CountsPartition(jobs);
    var unknown := Filter(jobs, UnknownStatus());
    if unknown != [] {
      assert unknown[0] in unknown;
    }
  }

  // ---------------------------------------------------------------------
  // Chart and stat tiles

  datatype ChartEntry = ChartEntry(name: string, value: nat)

  /** `chartData`: one entry per status, in the fixed order Applied, Interview, Offer, Rejected. */
  function ChartData(s: Stats): (r: seq<ChartEntry>)
    ensures |r| == |StatusNames|
    ensures forall i :: 0 <= i < |r| ==> r[i].name == StatusNames[i]
  {
    [ChartEntry(Applied, s.applied), ChartEntry(Interview, s.interview),
     ChartEntry(Offer, s.offer), ChartEntry(Rejected, s.rejected)]
  }

  /** The pie chart is drawn unless the list is empty; otherwise a placeholder is. */
  predicate ShowsChart(s: Stats): (r: bool)
    ensures r <==> s.total > 0
  {
    s.total != 0
  }

  function SumValues(entries: seq<ChartEntry>): nat {
    if entries == [] then 0 else entries[0].value + SumValues(entries[1..])
  }

  /**
   * The chart has four entries in the fixed order, and the value of each is
   * the number of jobs that have that entry's status.
   */
  lemma ChartCountsJobs(jobs: seq<Job>)
    ensures |ChartData(ComputeStats(jobs))| == 4
    ensures forall i :: 0 <= i < 4 ==>
      ChartData(ComputeStats(jobs))[i].name == StatusNames[i] &&
      ChartData(ComputeStats(jobs))[i].value == CountStatus(jobs, StatusNames[i])
  {
  }

  /**
   * The placeholder replaces the chart exactly when there are no jobs, and
   * then every slice is zero; when every status is one of the four, the
   * slices add up to the total.
   */
  lemma ChartPlaceholder(jobs: seq<Job>)
    ensures !ShowsChart(ComputeStats(jobs)) <==> jobs == []
    ensures jobs == [] ==> SumValues(ChartData(ComputeStats(jobs))) == 0
    ensures (forall job :: job in jobs ==> IsKnownStatus(job.status)) ==>
      SumValues(ChartData(ComputeStats(jobs))) == ComputeStats(jobs).total
  {
    var s := ComputeStats(jobs);
    var chart := ChartData(s);
    assert SumValues(chart) == CountSum(s) by {
      assert SumValues(chart[3..]) == s.rejected;
      assert SumValues(chart[2..]) == s.offer + s.rejected;
      assert SumValues(chart[1..]) == s.interview + s.offer + s.rejected;
    }
    CountsBoundedByTotal(jobs);
  }

  datatype Tile = Tile(title: string, value: nat)

  /** The five stat tiles: the total, then one per status. */
  function StatTiles(s: Stats): (r: seq<Tile>)
    ensures |r| == 5 && r[0] == Tile("Total", s.total)
  {
    [Tile("Total", s.total), Tile(Applied, s.applied), Tile(Interview, s.interview),
     Tile(Offer, s.offer), Tile(Rejected, s.rejected)]
  }

  /** After the total, the tiles show the chart's entries, name for name and value for value. */
  lemma TilesMatchChart(s: Stats)
    ensures forall i :: 0 <= i < 4 ==>
      StatTiles(s)[i + 1] == Tile(ChartData(s)[i].name, ChartData(s)[i].value)
  {
  }

  // ---------------------------------------------------------------------
  // The derived view as a whole

  /** Everything the page derives from `jobs`, `filter` and `search`. */
  datatype View = View(cards: seq<Job>, stats: Stats, tiles: seq<Tile>, chart: seq<ChartEntry>, showsChart: bool)

  function ComputeView(jobs: seq<Job>, filter: string, search: string): (v: View)
    ensures |v.cards| <= v.stats.total
  {
    var s := ComputeStats(jobs);
    View(FilteredJobs(jobs, filter, search), s, StatTiles(s), ChartData(s), ShowsChart(s))
  }

  /**
   * Changing the filter or the search text changes only the cards: the
   * tiles, the counts and the chart stay as they are.
   */
  lemma StatsIgnoreFilterAndSearch(jobs: seq<Job>, f1: string, s1: string, f2: string, s2: string)
    ensures var v1, v2 := ComputeView(jobs, f1, s1), ComputeView(jobs, f2, s2);
      v1.stats == v2.stats && v1.tiles == v2.tiles && v1.chart == v2.chart && v1.showsChart == v2.showsChart
  {
  }

  // ---------------------------------------------------------------------
  // Status badge colour

  const AppliedColor: string := "bg-blue-500/80"
  const InterviewColor: string := "bg-amber-500/80"
  const OfferColor: string := "bg-emerald-500/80"
  const RejectedColor: string := "bg-rose-500/80"
  const DefaultColor: string := "bg-gray-500/80"

  /** `getStatusColor`: a class per known status, gray for any other string. */
  function StatusColor(status: string): (r: string)
    ensures r == DefaultColor <==> !IsKnownStatus(status)
  {
    match status
    case "Applied" => AppliedColor
    case "Interview" => InterviewColor
    case "Offer" => OfferColor
    case "Rejected" => RejectedColor
    case _ => DefaultColor
  }

  /** Distinct known statuses get distinct colours. */
  lemma StatusColorsDistinct(a: string, b: string)
    requires IsKnownStatus(a) && IsKnownStatus(b) && a != b
    ensures StatusColor(a) != StatusColor(b)
  {
  }
}
