/**
 * The `filteredTableData` expression both dashboards compute on each render,
 * the three summary-card counts, and `getTableTitle`.
 *
 * A record is shown when it passes three tests, ANDed: its status, a
 * case-insensitive search on the full name `ismFamilya`, and a date test.
 * The date test is a bucket (all / today / this month / this year) compared
 * against `today`, except that once both ends of the explicit range are set,
 * the range decides for every record that has a `createdAt`.
 */
module RecordFilter {
  import opened Wrappers
  import opened Calendar
  import opened Records
  import Seqs

  const AllStatuses := "all"
  const InProgress := "jarayonda"
  const Completed := "bajarilgan"

  /** The quick date filter: `'all'`, `'day'`, `'month'` and `'year'` in the source. */
  datatype DateBucket = AllDates | Today | ThisMonth | ThisYear

  /**
   * The filter state of a dashboard: `currentFilter`, `searchQuery`,
   * `dateFilter` and the two ends of `dateRange` (`None` for `null`).
   */
  datatype FilterConfig = FilterConfig(
    status: string,
    search: string,
    bucket: DateBucket,
    rangeStart: Option<Date>,
    rangeEnd: Option<Date>)

  /** The configuration a dashboard starts with: nothing filtered. */
  const Unfiltered := FilterConfig(AllStatuses, "", AllDates, None, None)

  /** What clicking a summary card selects when no other filter is set. */
  function StatusOnly(status: string): FilterConfig
  {
    FilterConfig(status, "", AllDates, None, None)
  }

  // ---- the three tests ----

  /** ASCII `toLowerCase` on one character. */
  function LowerChar(c: char): char
  {
    if 'A' <= c <= 'Z' then (c as int + 32) as char else c
  }

  /**
   * ASCII `toLowerCase`: no capital letter survives, each capital becomes the
   * small letter at the same place in the alphabet, and every other
   * character is kept where it was.
   */
  function Lower(s: string): (r: string)
    ensures |r| == |s|
    ensures forall i :: 0 <= i < |r| ==> !('A' <= r[i] <= 'Z')
    ensures forall i :: 0 <= i < |s| && !('A' <= s[i] <= 'Z') ==> r[i] == s[i]
    ensures forall i :: 0 <= i < |s| && 'A' <= s[i] <= 'Z' ==>
      'a' <= r[i] <= 'z' && r[i] as int - 'a' as int == s[i] as int - 'A' as int
  {
    seq(|s|, i requires 0 <= i < |s| => LowerChar(s[i]))
  }

  /** Lowercasing twice is lowercasing once. */
  lemma LowerIdempotent(s: string)
    ensures Lower(Lower(s)) == Lower(s)
  {
  }

  /** Lowercasing works character by character: it distributes over concatenation. */
  lemma LowerConcat(a: string, b: string)
    ensures Lower(a + b) == Lower(a) + Lower(b)
  {
  }

  /** Lowercasing a piece of a text gives the same piece of the lowercased text. */
  lemma LowerSlice(s: string, i: nat, j: nat)
    requires i <= j <= |s|
    ensures Lower(s)[i..j] == Lower(s[i..j])
  {
  }

  /** The status test: the card `all` is selected, or the record's status is the selected card. */
  predicate StatusMatch(r: Record, status: string)
  {
    status == AllStatuses || r.status == Some(status)
  }

  /** The search test: the query is empty, or the full name contains it once both are lowercased. */
  predicate SearchMatch(r: Record, query: string)
  {
    query == "" || Seqs.Contains(Lower(r.ismFamilya), Lower(query))
  }

  /**
   * The bucket part of the date test. A record without `createdAt` passes;
   * a malformed one has no day, month or year and fails every comparison.
   */
  predicate BucketMatch(createdAt: string, bucket: DateBucket, today: Date)
  {
    if bucket == AllDates || createdAt == "" then true
    else
      match ParseCreatedAt(createdAt)
      case None => false
      case Some(d) =>
        match bucket
        case Today => d.day == today.day && d.month == today.month && d.year == today.year
        case ThisMonth => d.month == today.month && d.year == today.year
        case ThisYear => d.year == today.year
        case AllDates => true
  }

  predicate RangeSet(cfg: FilterConfig)
  {
    cfg.rangeStart.Some? && cfg.rangeEnd.Some?
  }

  /**
   * The range test on day numbers: the record's date lies after the day
   * before the start and before the day after the end. A malformed record
   * date, or a range end that is not a calendar date (a date picker holding
   * a half-typed date), is an invalid date, and every comparison with an
   * invalid date is false.
   */
  predicate InRange(createdAt: string, start: Date, end: Date)
  {
    match ParseCreatedAt(createdAt)
    case None => false
    case Some(d) =>
      ValidDate(start) && ValidDate(end)
      && DayNumber(d) > DayNumber(start) - 1 && DayNumber(d) < DayNumber(end) + 1
  }

  /** The final value of `dateMatch`: the range overrides the bucket when it is fully set and `createdAt` is present. */
  predicate DateMatch(r: Record, cfg: FilterConfig, today: Date)
  {
    if RangeSet(cfg) && r.createdAt != "" then InRange(r.createdAt, cfg.rangeStart.value, cfg.rangeEnd.value)
    else BucketMatch(r.createdAt, cfg.bucket, today)
  }

  predicate Matches(r: Record, cfg: FilterConfig, today: Date)
  {
    StatusMatch(r, cfg.status) && SearchMatch(r, cfg.search) && DateMatch(r, cfg, today)
  }

  /** The rows of the cache that pass all three tests, in the cache's order. */
  function FilterRecords(rows: seq<Record>, cfg: FilterConfig, today: Date): (view: seq<Record>)
    ensures |view| <= |rows|
    decreases |rows|
  {
    if rows == [] then []
    else if Matches(rows[0], cfg, today) then [rows[0]] + FilterRecords(rows[1..], cfg, today)
    else FilterRecords(rows[1..], cfg, today)
  }

  // ---- the view ----

  /** The view is the cache with some rows left out, in the cache's order. */
  lemma {:induction false} FilterIsSubsequence(rows: seq<Record>, cfg: FilterConfig, today: Date)
    ensures Seqs.IsSubsequence(FilterRecords(rows, cfg, today), rows)
    decreases |rows|
  {
    if rows != [] {
      var rest := FilterRecords(rows[1..], cfg, today);
      FilterIsSubsequence(rows[1..], cfg, today);
      assert [rows[0]] + rows[1..] == rows;
      if Matches(rows[0], cfg, today) {
        Seqs.SubsequenceCons(rows[0], rest, rows[1..]);
      } else {
        Seqs.SubsequenceSkip(rows[0], rest, rows[1..]);
      }
    }
  }

  /** A record is in the view exactly when it is in the cache and passes all three tests. */
  lemma {:induction false} FilterMembership(rows: seq<Record>, cfg: FilterConfig, today: Date)
    ensures forall x :: x in FilterRecords(rows, cfg, today) <==> x in rows && Matches(x, cfg, today)
    decreases |rows|
  {
    if rows != [] {
      FilterMembership(rows[1..], cfg, today);
      assert [rows[0]] + rows[1..] == rows;
    }
  }

  /** Every passing row is kept as often as the cache holds it; every failing row is dropped, copies included. */
  lemma {:induction false} FilterMultiset(rows: seq<Record>, cfg: FilterConfig, today: Date)
    ensures forall x :: multiset(FilterRecords(rows, cfg, today))[x] == if Matches(x, cfg, today) then multiset(rows)[x] else 0
    decreases |rows|
  {
    if rows != [] {
      FilterMultiset(rows[1..], cfg, today);
      assert [rows[0]] + rows[1..] == rows;
    }
  }

  /** When every row passes, the view is the whole cache. */
  lemma {:induction false} FilterKeepsAllPassing(rows: seq<Record>, cfg: FilterConfig, today: Date)
    requires forall i :: 0 <= i < |rows| ==> Matches(rows[i], cfg, today)
    ensures FilterRecords(rows, cfg, today) == rows
    decreases |rows|
  {
    if rows != [] {
      FilterKeepsAllPassing(rows[1..], cfg, today);
      assert [rows[0]] + rows[1..] == rows;
    }
  }

  /**
   * Status `'all'`, an empty search, bucket `'all'` and a range with at most
   * one end set show the cache unchanged, whatever `today` is.
   */
  lemma NeutralFilterShowsAll(rows: seq<Record>, cfg: FilterConfig, today: Date)
    requires cfg.status == AllStatuses && cfg.search == "" && cfg.bucket == AllDates && !RangeSet(cfg)
    ensures FilterRecords(rows, cfg, today) == rows
  {
    FilterKeepsAllPassing(rows, cfg, today);
  }

  /** A dashboard that has just opened, with no filter touched, shows its whole cache. */
  lemma UnfilteredShowsAll(rows: seq<Record>, today: Date)
    ensures FilterRecords(rows, Unfiltered, today) == rows
  {
    NeutralFilterShowsAll(rows, Unfiltered, today);
  }

  // ---- the individual tests ----

  /** A full name that contains the query verbatim is found, whatever the case of either. */
  lemma SearchFindsSubstring(r: Record, query: string, i: nat)
    requires Seqs.OccursAt(r.ismFamilya, query, i)
    ensures SearchMatch(r, query)
  {
    var name := r.ismFamilya;
    LowerSlice(name, i, i + |query|);
    assert Seqs.OccursAt(Lower(name), Lower(query), i);
  }

  /** Changing the case of the query's letters never changes the result of the search. */
  lemma SearchIgnoresCase(r: Record, q1: string, q2: string)
    requires Lower(q1) == Lower(q2)
    ensures SearchMatch(r, q1) == SearchMatch(r, q2)
  {
    assert |q1| == |Lower(q1)|;
  }

  /**
   * On a record with a well-formed `createdAt` and no full range: `day` needs
   * today's day, month and year, `month` today's month and year, `year` today's year.
   */
  lemma BucketSemantics(r: Record, cfg: FilterConfig, today: Date, d: Date)
    requires !RangeSet(cfg) && ParseCreatedAt(r.createdAt) == Some(d)
    ensures cfg.bucket == AllDates ==> DateMatch(r, cfg, today)
    ensures cfg.bucket == Today ==> (DateMatch(r, cfg, today) <==> d == today)
    ensures cfg.bucket == ThisMonth ==> (DateMatch(r, cfg, today) <==> d.month == today.month && d.year == today.year)
    ensures cfg.bucket == ThisYear ==> (DateMatch(r, cfg, today) <==> d.year == today.year)
  {
  }

  /** A record dated the day before `today` is never in the `day` bucket. */
  lemma YesterdayIsNotToday(r: Record, cfg: FilterConfig, today: Date, d: Date)
    requires ValidDate(today) && !RangeSet(cfg) && cfg.bucket == Today
    requires ParseCreatedAt(r.createdAt) == Some(d) && DayNumber(d) + 1 == DayNumber(today)
    ensures !Matches(r, cfg, today)
  {
    BucketSemantics(r, cfg, today, d);
    DayNumberOrder(d, today);
  }

  /** A record whose `createdAt` is empty or missing passes the date test under every bucket and every range. */
  lemma MissingDatePasses(r: Record, cfg: FilterConfig, today: Date)
    requires r.createdAt == ""
    ensures DateMatch(r, cfg, today)
  {
  }

  /** A malformed `createdAt` fails the date test as soon as a bucket or a full range is active. */
  lemma MalformedDateFails(r: Record, cfg: FilterConfig, today: Date)
    requires r.createdAt != "" && ParseCreatedAt(r.createdAt) == None
    requires cfg.bucket != AllDates || RangeSet(cfg)
    ensures !Matches(r, cfg, today)
  {
  }

  /**
   * With both ends set, a dated record passes exactly when its date lies
   * between the two ends, both end days included; the bucket plays no part.
   */
  lemma RangeIsInclusive(r: Record, cfg: FilterConfig, today: Date, d: Date)
    requires RangeSet(cfg) && ValidDate(cfg.rangeStart.value) && ValidDate(cfg.rangeEnd.value)
    requires ParseCreatedAt(r.createdAt) == Some(d)
    ensures DateMatch(r, cfg, today) <==> OnOrBefore(cfg.rangeStart.value, d) && OnOrBefore(d, cfg.rangeEnd.value)
    ensures forall b :: DateMatch(r, cfg, today) == DateMatch(r, cfg.(bucket := b), today)
  {
    DayNumberOrder(cfg.rangeStart.value, d);
    DayNumberOrder(d, cfg.rangeEnd.value);
  }

  /**
   * With both ends set but one of them not a calendar date, every dated
   * record is hidden, whatever the bucket; undated records still pass.
   */
  lemma InvalidRangeEndHidesDated(r: Record, cfg: FilterConfig, today: Date)
    requires RangeSet(cfg) && !(ValidDate(cfg.rangeStart.value) && ValidDate(cfg.rangeEnd.value))
    ensures r.createdAt != "" ==> !DateMatch(r, cfg, today)
    ensures r.createdAt == "" ==> DateMatch(r, cfg, today) == BucketMatch("", cfg.bucket, today)
  {
  }

  /** A range with only one end set leaves the bucket in charge. */
  lemma PartialRangeIgnored(r: Record, cfg: FilterConfig, today: Date)
    ensures forall s: Option<Date>, e: Option<Date> ::
      (s.None? || e.None?) ==>
        DateMatch(r, cfg.(rangeStart := s, rangeEnd := e), today) == BucketMatch(r.createdAt, cfg.bucket, today)
  {
  }

  const Jan10 := Date(10, 1, 2024)
  const Jan15 := Date(15, 1, 2024)
  const Jan20 := Date(20, 1, 2024)
  const Jan25 := Date(25, 1, 2024)

  const Jan10To20 := FilterConfig(AllStatuses, "", AllDates, Some(Jan10), Some(Jan20))

  /** A record dated `d` in January 2024 passes the range 10–20 January exactly when `10 <= d.day <= 20`. */
  lemma JanuaryRange(r: Record, today: Date, d: Date)
    requires d.month == 1 && d.year == 2024 && 1 <= d.day <= 31
    requires r.createdAt == FormatDate(d)
    ensures DateMatch(r, Jan10To20, today) <==> 10 <= d.day <= 20
  {
    ParseFormatRoundTrip(d);
    RangeIsInclusive(r, Jan10To20, today, d);
  }

  /** The four example dates as the table stores them. */
  lemma Jan10Text()
    ensures FormatDate(Jan10) == "10.01.2024"
  {
  }

  lemma Jan15Text()
    ensures FormatDate(Jan15) == "15.01.2024"
  {
  }

  lemma Jan20Text()
    ensures FormatDate(Jan20) == "20.01.2024"
  {
  }

  lemma Jan25Text()
    ensures FormatDate(Jan25) == "25.01.2024"
  {
  }

  /** The range 10–20 January 2024 shows records dated the 10th, 15th and 20th and hides the 25th. */
  lemma RangeExample(r: Record, today: Date)
    ensures r.createdAt == "10.01.2024" ==> DateMatch(r, Jan10To20, today)
    ensures r.createdAt == "15.01.2024" ==> DateMatch(r, Jan10To20, today)
    ensures r.createdAt == "20.01.2024" ==> DateMatch(r, Jan10To20, today)
    ensures r.createdAt == "25.01.2024" ==> !DateMatch(r, Jan10To20, today)
  {
    if r.createdAt == "10.01.2024" {
      Jan10Text();
      JanuaryRange(r, today, Jan10);
    } else if r.createdAt == "15.01.2024" {
      Jan15Text();
      JanuaryRange(r, today, Jan15);
    } else if r.createdAt == "20.01.2024" {
      Jan20Text();
      JanuaryRange(r, today, Jan20);
    } else if r.createdAt == "25.01.2024" {
      Jan25Text();
      JanuaryRange(r, today, Jan25);
    }
  }

  /** "Ali Valiyev" is found by "ali", by "VALIYEV" and by the empty search. */
  lemma SearchExample(r: Record)
    requires r.ismFamilya == "Ali Valiyev"
    ensures SearchMatch(r, "ali") && SearchMatch(r, "VALIYEV") && SearchMatch(r, "")
  {
    assert Lower("Ali Valiyev") == "ali valiyev";
    assert Lower("ali") == "ali";
    assert Lower("VALIYEV") == "valiyev";
    assert Seqs.OccursAt("ali valiyev", "ali", 0);
    assert Seqs.OccursAt("ali valiyev", "valiyev", 4);
  }

  // ---- summary cards ----

  /** The number of cached rows whose status is `s`. */
  function CountStatus(rows: seq<Record>, s: string): (n: nat)
    ensures n <= |rows|
    decreases |rows|
  {
    if rows == [] then 0
    else (if rows[0].status == Some(s) then 1 else 0) + CountStatus(rows[1..], s)
  }

  /** No record is counted under two different statuses. */
  lemma {:induction false} StatusCountsDisjoint(rows: seq<Record>, s1: string, s2: string)
    requires s1 != s2
    ensures CountStatus(rows, s1) + CountStatus(rows, s2) <= |rows|
    decreases |rows|
  {
    if rows != [] {
      StatusCountsDisjoint(rows[1..], s1, s2);
    }
  }

  /** A status card shows as many rows as the unfiltered view of that status holds. */
  lemma {:induction false} CardIsStatusView(rows: seq<Record>, s: string, today: Date)
    requires s != AllStatuses
    ensures CountStatus(rows, s) == |FilterRecords(rows, StatusOnly(s), today)|
    decreases |rows|
  {
    if rows != [] {
      CardIsStatusView(rows[1..], s, today);
    }
  }

  /** Whatever else is filtered, a view restricted to one status never holds more rows than that status's card. */
  lemma {:induction false} CardBoundsView(rows: seq<Record>, cfg: FilterConfig, today: Date)
    requires cfg.status != AllStatuses
    ensures |FilterRecords(rows, cfg, today)| <= CountStatus(rows, cfg.status)
    decreases |rows|
  {
    if rows != [] {
      CardBoundsView(rows[1..], cfg, today);
    }
  }

  datatype Cards = Cards(total: nat, inProgress: nat, completed: nat)

  /**
   * The three cards, taken over the whole cache: no filter setting enters,
   * each status card equals its unfiltered status view and bounds every
   * filtered view of that status.
   */
  function CardCounts(rows: seq<Record>): (c: Cards)
    ensures c.total == |rows| && c.inProgress + c.completed <= c.total
    ensures forall today :: c.inProgress == |FilterRecords(rows, StatusOnly(InProgress), today)|
    ensures forall today :: c.completed == |FilterRecords(rows, StatusOnly(Completed), today)|
    ensures forall cfg: FilterConfig, today: Date :: cfg.status == InProgress ==> |FilterRecords(rows, cfg, today)| <= c.inProgress
    ensures forall cfg: FilterConfig, today: Date :: cfg.status == Completed ==> |FilterRecords(rows, cfg, today)| <= c.completed
  {
    StatusCountsDisjoint(rows, InProgress, Completed);
    CardsAgreeWithViews(rows, InProgress);
    CardsAgreeWithViews(rows, Completed);
    Cards(|rows|, CountStatus(rows, InProgress), CountStatus(rows, Completed))
  }

  lemma CardsAgreeWithViews(rows: seq<Record>, s: string)
    requires s != AllStatuses
    ensures forall today :: CountStatus(rows, s) == |FilterRecords(rows, StatusOnly(s), today)|
    ensures forall cfg: FilterConfig, today: Date :: cfg.status == s ==> |FilterRecords(rows, cfg, today)| <= CountStatus(rows, s)
  {
    forall today ensures CountStatus(rows, s) == |FilterRecords(rows, StatusOnly(s), today)| {
      CardIsStatusView(rows, s, today);
    }
    forall cfg: FilterConfig, today: Date | cfg.status == s ensures |FilterRecords(rows, cfg, today)| <= CountStatus(rows, s) {
      CardBoundsView(rows, cfg, today);
    }
  }

  /** `getTableTitle`: the heading above the table for the selected status card. */
  function TableTitle(status: string): (title: string)
    ensures title == "JARAYONDA" <==> status == InProgress
    ensures title == "BAJARILGAN" <==> status == Completed
    ensures title == "MUROJATLAR" <==> status != InProgress && status != Completed
  {
    if status == InProgress then "JARAYONDA"
    else if status == Completed then "BAJARILGAN"
    else "MUROJATLAR"
  }
}
