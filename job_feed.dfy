/**
 * The professional's job feed: the category filter over the job list, the
 * category table with its icons, and the relative-time caption of a job card.
 */
module JobFeed {
  import opened Types

  /** The feed's selection: every job, or one service category. */
  datatype CategoryFilter = FilterAll | FilterBy(category: ServiceCategory)

  /** The feed opens on every job. */
  const InitialFeedFilter: CategoryFilter := FilterAll

  predicate Admits(f: CategoryFilter, job: Job) {
    f.FilterAll? || job.serviceCategory == f.category
  }

  /** `filteredJobs`: the jobs the selection admits, in list order. */
  function FilterJobs(jobs: seq<Job>, f: CategoryFilter): (r: seq<Job>)
    ensures |r| <= |jobs|
  {
    if jobs == [] then []
    else (if Admits(f, jobs[0]) then [jobs[0]] else []) + FilterJobs(jobs[1..], f)
  }

  /** `a` is `b` with some elements deleted, the rest in the same order. */
  predicate IsSubsequence<T(==)>(a: seq<T>, b: seq<T>)
    decreases |b|
  {
    a == [] || (b != [] && ((a[0] == b[0] && IsSubsequence(a[1..], b[1..])) || IsSubsequence(a, b[1..])))
  }

  lemma {:induction false} SubsequenceIsShorter<T>(a: seq<T>, b: seq<T>)
    requires IsSubsequence(a, b)
    ensures |a| <= |b|
    decreases |b|
  {
    if a != [] {
      if a[0] == b[0] && IsSubsequence(a[1..], b[1..]) {
        SubsequenceIsShorter(a[1..], b[1..]);
      } else {
        SubsequenceIsShorter(a, b[1..]);
      }
    }
  }

  /** With "all" selected the feed shows the list as it is. */
  lemma {:induction false} FilterAllIsIdentity(jobs: seq<Job>)
    ensures FilterJobs(jobs, FilterAll) == jobs
  {
    if jobs != [] {
      FilterAllIsIdentity(jobs[1..]);
      assert jobs == [jobs[0]] + jobs[1..];
    }
  }

  /** The feed holds exactly the admitted jobs of the list. */
  lemma {:induction false} FilterMembers(jobs: seq<Job>, f: CategoryFilter, j: Job)
    ensures j in FilterJobs(jobs, f) <==> j in jobs && Admits(f, j)
  {
    if jobs != [] {
      FilterMembers(jobs[1..], f, j);
      assert jobs == [jobs[0]] + jobs[1..];
    }
  }

  /** The feed keeps the list's relative order: it is a subsequence of it. */
  lemma {:induction false} FilterIsSubsequence(jobs: seq<Job>, f: CategoryFilter)
    ensures IsSubsequence(FilterJobs(jobs, f), jobs)
  {
    if jobs != [] {
      FilterIsSubsequence(jobs[1..], f);
      var rest := FilterJobs(jobs[1..], f);
      var r := FilterJobs(jobs, f);
      if Admits(f, jobs[0]) {
        assert r == [jobs[0]] + rest;
        assert r[0] == jobs[0] && r[1..] == rest;
        assert IsSubsequence(r[1..], jobs[1..]);
      } else {
        assert r == rest;
      }
    }
  }

  /** Filtering a concatenation filters each part. */
  lemma {:induction false} FilterAppend(a: seq<Job>, b: seq<Job>, f: CategoryFilter)
    ensures FilterJobs(a + b, f) == FilterJobs(a, f) + FilterJobs(b, f)
  {
    if a == [] {
      assert a + b == b;
    } else {
      var ab := a + b;
      assert ab[0] == a[0] && ab[1..] == a[1..] + b;
      FilterAppend(a[1..], b, f);
      var head := if Admits(f, a[0]) then [a[0]] else [];
      assert FilterJobs(ab, f) == head + FilterJobs(a[1..] + b, f);
      assert FilterJobs(a, f) == head + FilterJobs(a[1..], f);
      assert head + (FilterJobs(a[1..], f) + FilterJobs(b, f))
          == (head + FilterJobs(a[1..], f)) + FilterJobs(b, f);
    }
  }

  /** Every admitted job appears as often as in the list, every other job not at all. */
  lemma {:induction false} FilterCounts(jobs: seq<Job>, f: CategoryFilter, j: Job)
    ensures multiset(FilterJobs(jobs, f))[j] == if Admits(f, j) then multiset(jobs)[j] else 0
  {
    if jobs != [] {
      FilterCounts(jobs[1..], f, j);
      assert jobs == [jobs[0]] + jobs[1..];
    }
  }

  function SumOfCategoryCounts(jobs: seq<Job>, cats: seq<ServiceCategory>): nat {
    if cats == [] then 0
    else |FilterJobs(jobs, FilterBy(cats[0]))| + SumOfCategoryCounts(jobs, cats[1..])
  }

  /** Removing the first job removes it from the count of every selection naming its category. */
  lemma {:induction false} SumOfCategoryCountsStep(jobs: seq<Job>, cats: seq<ServiceCategory>)
    requires jobs != []
    ensures SumOfCategoryCounts(jobs, cats)
      == SumOfCategoryCounts(jobs[1..], cats) + multiset(cats)[jobs[0].serviceCategory]
  {
    if cats != [] {
      SumOfCategoryCountsStep(jobs, cats[1..]);
      assert cats == [cats[0]] + cats[1..];
    }
  }

  lemma {:induction false} SumOfCategoryCountsEmpty(cats: seq<ServiceCategory>)
    ensures SumOfCategoryCounts([], cats) == 0
  {
    if cats != [] {
      SumOfCategoryCountsEmpty(cats[1..]);
    }
  }

  lemma EachCategoryListedOnce(c: ServiceCategory)
    ensures multiset(AllCategories)[c] == 1
  {
    assert AllCategories == [HVAC] + [GutterCleaning] + [Plumbing] + [Electrical] + [GeneralHandyman];
  }

  /** A derived fact about the filter, not one the screen relies on: the five
      category selections split the list, their sizes adding up to its length. */
  lemma {:induction false} CategoriesPartitionFeed(jobs: seq<Job>)
    ensures SumOfCategoryCounts(jobs, AllCategories) == |jobs|
  {
    if jobs == [] {
      SumOfCategoryCountsEmpty(AllCategories);
    } else {
      CategoriesPartitionFeed(jobs[1..]);
      SumOfCategoryCountsStep(jobs, AllCategories);
      EachCategoryListedOnce(jobs[0].serviceCategory);
    }
  }

  /** One entry of the feed's category bar. */
  datatype FeedEntry = FeedEntry(filter: CategoryFilter, icon: string, caption: string)

  const FallbackIcon: string := "\U{1F527}"

  const FeedCategories: seq<FeedEntry> := [
    FeedEntry(FilterAll, "\U{1F4CB}", "All Jobs"),
    FeedEntry(FilterBy(HVAC), "\U{2744}\U{FE0F}", "HVAC"),
    FeedEntry(FilterBy(GutterCleaning), "\U{1F3E0}", "Gutters"),
    FeedEntry(FilterBy(Plumbing), "\U{1F6B0}", "Plumbing"),
    FeedEntry(FilterBy(Electrical), "\U{26A1}", "Electrical"),
    FeedEntry(FilterBy(GeneralHandyman), "\U{1F527}", "Handyman")
  ]

  /** `find` for the first entry with the key, then `?.icon || fallback`. */
  function LookupIcon(table: seq<FeedEntry>, key: CategoryFilter): (r: string)
    ensures r != ""
  {
    if table == [] then FallbackIcon
    else if table[0].filter == key then (if table[0].icon == "" then FallbackIcon else table[0].icon)
    else LookupIcon(table[1..], key)
  }

  /** The lookup answers the icon of the first entry with the key when it is
      non-empty, and the fallback when the key is absent. */
  lemma {:induction false} LookupIconFindsFirst(table: seq<FeedEntry>, key: CategoryFilter, i: int)
    requires 0 <= i < |table| && table[i].filter == key
    requires forall p :: 0 <= p < i ==> table[p].filter != key
    ensures LookupIcon(table, key) == if table[i].icon == "" then FallbackIcon else table[i].icon
  {
    if i > 0 {
      LookupIconFindsFirst(table[1..], key, i - 1);
    }
  }

  lemma {:induction false} LookupIconAbsent(table: seq<FeedEntry>, key: CategoryFilter)
    requires forall p :: 0 <= p < |table| ==> table[p].filter != key
    ensures LookupIcon(table, key) == FallbackIcon
  {
    if table != [] {
      LookupIconAbsent(table[1..], key);
    }
  }

  /** The selections the category bar offers. */
  function FeedFilters(): set<CategoryFilter> {
    set i | 0 <= i < |FeedCategories| :: FeedCategories[i].filter
  }

  /** `getCategoryIcon`. */
  function CategoryIcon(c: ServiceCategory): string {
    LookupIcon(FeedCategories, FilterBy(c))
  }

  /** Every category gets the icon its table entry lists. */
  lemma CategoryIcons()
    ensures CategoryIcon(HVAC) == "\U{2744}\U{FE0F}"
    ensures CategoryIcon(GutterCleaning) == "\U{1F3E0}"
    ensures CategoryIcon(Plumbing) == "\U{1F6B0}"
    ensures CategoryIcon(Electrical) == "\U{26A1}"
    ensures CategoryIcon(GeneralHandyman) == "\U{1F527}"
  {
  }

  /** The category bar offers every selection once, "all" first. */
  lemma FeedCategoryBar()
    ensures |FeedCategories| == 6 && FeedCategories[0].filter == FilterAll
    ensures forall f: CategoryFilter :: f in FeedFilters()
    ensures forall i, k :: 0 <= i < k < |FeedCategories| ==> FeedCategories[i].filter != FeedCategories[k].filter
  {
    forall f: CategoryFilter ensures f in FeedFilters() {
      match f
      case FilterAll => assert FeedCategories[0].filter == f;
      case FilterBy(HVAC) => assert FeedCategories[1].filter == f;
      case FilterBy(GutterCleaning) => assert FeedCategories[2].filter == f;
      case FilterBy(Plumbing) => assert FeedCategories[3].filter == f;
      case FilterBy(Electrical) => assert FeedCategories[4].filter == f;
      case FilterBy(GeneralHandyman) => assert FeedCategories[5].filter == f;
    }
  }

  // Decimal rendering of the numbers in the caption, as template literals print them.

  function DigitChar(d: nat): char
    requires d < 10
  {
    (48 + d) as char
  }

  predicate IsDigit(c: char) {
    48 <= c as int <= 57
  }

  function NatToString(n: nat): (r: string)
    ensures r != [] && forall p :: 0 <= p < |r| ==> IsDigit(r[p])
    ensures |r| > 1 ==> r[0] != '0'
  {
    if n < 10 then [DigitChar(n)] else NatToString(n / 10) + [DigitChar(n % 10)]
  }

  function ParseDigits(s: string): nat
    requires forall p :: 0 <= p < |s| ==> IsDigit(s[p])
  {
    if s == [] then 0
    else
      assert IsDigit(s[|s| - 1]);
      ParseDigits(s[..|s| - 1]) * 10 + (s[|s| - 1] as int - 48)
  }

  /** Reading the rendering back gives the number. */
  lemma {:induction false} NatToStringRoundTrip(n: nat)
    ensures ParseDigits(NatToString(n)) == n
  {
    if n >= 10 {
      NatToStringRoundTrip(n / 10);
      var s := NatToString(n);
      assert s[..|s| - 1] == NatToString(n / 10);
    }
  }

  /** Whole minutes elapsed, `Math.floor(diff / 60000)`; negative for a future date. */
  function MinutesAgo(nowMs: Timestamp, dateMs: Timestamp): int {
    (nowMs - dateMs) / 60000
  }

  lemma MinutesAgoIsFloor(nowMs: Timestamp, dateMs: Timestamp)
    ensures MinutesAgo(nowMs, dateMs) * 60000 <= nowMs - dateMs < (MinutesAgo(nowMs, dateMs) + 1) * 60000
  {
  }

  /** `formatTimeAgo`. */
  function FormatTimeAgo(nowMs: Timestamp, dateMs: Timestamp): string {
    var m := MinutesAgo(nowMs, dateMs);
    if m < 1 then "Just now"
    else if m < 60 then NatToString(m) + "m ago"
    else if m < 1440 then NatToString(m / 60) + "h ago"
    else NatToString(m / 1440) + "d ago"
  }

  /** What a caption says. */
  datatype TimeAgo = JustNow | Minutes(n: nat) | Hours(n: nat) | Days(n: nat) | Unreadable

  /** Reads a caption back: "Just now", or a number followed by a unit and " ago". */
  function ParseTimeAgo(s: string): TimeAgo {
    if s == "Just now" then JustNow
    else if |s| >= 6 && s[|s| - 4..] == " ago" && (forall p :: 0 <= p < |s| - 5 ==> IsDigit(s[p])) then
      var n := ParseDigits(s[..|s| - 5]);
      match s[|s| - 5]
      case 'm' => Minutes(n)
      case 'h' => Hours(n)
      case 'd' => Days(n)
      case _ => Unreadable
    else Unreadable
  }

  lemma {:induction false} CaptionReadsBack(n: nat, unit: char)
    requires unit == 'm' || unit == 'h' || unit == 'd'
    ensures var s := NatToString(n) + [unit] + " ago";
      ParseTimeAgo(s) == match unit case 'm' => Minutes(n) case 'h' => Hours(n) case _ => Days(n)
  {
    var d := NatToString(n);
    var s := d + [unit] + " ago";
    assert s[0] == d[0] && IsDigit(s[0]);
    assert s != "Just now";
    assert s[|s| - 4..] == " ago";
    assert s[..|s| - 5] == d;
    assert s[|s| - 5] == unit;
    NatToStringRoundTrip(n);
  }

  lemma MinutesCaption(m: int)
    requires 1 <= m < 60
    ensures ParseTimeAgo(NatToString(m) + "m ago") == Minutes(m)
  {
    CaptionReadsBack(m, 'm');
    assert NatToString(m) + "m ago" == NatToString(m) + ['m'] + " ago";
  }

  lemma HoursCaption(m: int)
    requires 60 <= m < 1440
    ensures ParseTimeAgo(NatToString(m / 60) + "h ago") == Hours(m / 60)
    ensures 1 <= m / 60 < 24 && (m / 60) * 60 <= m < (m / 60 + 1) * 60
  {
    CaptionReadsBack(m / 60, 'h');
    assert NatToString(m / 60) + "h ago" == NatToString(m / 60) + ['h'] + " ago";
  }

  lemma DaysCaption(m: int)
    requires 1440 <= m
    ensures ParseTimeAgo(NatToString(m / 1440) + "d ago") == Days(m / 1440)
    ensures 1 <= m / 1440 && (m / 1440) * 1440 <= m < (m / 1440 + 1) * 1440
  {
    CaptionReadsBack(m / 1440, 'd');
    assert NatToString(m / 1440) + "d ago" == NatToString(m / 1440) + ['d'] + " ago";
  }

  /** The caption's buckets: exactly one applies to every pair of times, and
      the caption states the elapsed time in its unit, rounded down. */
  lemma TimeAgoBuckets(nowMs: Timestamp, dateMs: Timestamp)
    ensures var m := MinutesAgo(nowMs, dateMs); var t := ParseTimeAgo(FormatTimeAgo(nowMs, dateMs));
      && (t == JustNow <==> m < 1)
      && (t.Minutes? <==> 1 <= m < 60)
      && (t.Minutes? ==> t.n == m)
      && (t.Hours? <==> 60 <= m < 1440)
      && (t.Hours? ==> 1 <= t.n < 24 && t.n * 60 <= m < (t.n + 1) * 60)
      && (t.Days? <==> 1440 <= m)
      && (t.Days? ==> 1 <= t.n && t.n * 1440 <= m < (t.n + 1) * 1440)
      && !t.Unreadable?
  {
    var m := MinutesAgo(nowMs, dateMs);
    var t := ParseTimeAgo(FormatTimeAgo(nowMs, dateMs));
    if m < 1 {
      assert t == JustNow;
    } else if m < 60 {
      MinutesCaption(m);
      assert t == Minutes(m);
    } else if m < 1440 {
      HoursCaption(m);
      assert t == Hours(m / 60);
    } else {
      DaysCaption(m);
      assert t == Days(m / 1440);
    }
  }

  /** A future creation date still reads "Just now". */
  lemma FutureDateIsJustNow(nowMs: Timestamp, dateMs: Timestamp)
    requires dateMs > nowMs
    ensures FormatTimeAgo(nowMs, dateMs) == "Just now"
  {
  }
}
