/**
 * The admin dashboard: totals of successful donations since the start of
 * today, of this month and of this year, the number of today's successful
 * donations, and the five newest donations and registrations.
 *
 * The current date comes in as a calendar date (year, month index 0..11,
 * day of month); its window starts are midnights on the proleptic Gregorian
 * calendar in milliseconds since 1970-01-01, all in one time zone.
 */
module Dashboard {
  import opened Base
  import opened Types
  import opened Seqs

  // ---------------------------------------------------------------------
  // Calendar
  // ---------------------------------------------------------------------

  predicate IsLeapYear(y: int) {
    y % 4 == 0 && (y % 100 != 0 || y % 400 == 0)
  }

  function MonthLength(y: int, m: nat): (n: nat)
    requires m < 12
    ensures 28 <= n <= 31
  {
    if m == 1 then (if IsLeapYear(y) then 29 else 28)
    else if m == 3 || m == 5 || m == 8 || m == 10 then 30
    else 31
  }

  /** Days in the months of year y before month index m. */
  function DaysBeforeMonth(y: int, m: nat): (n: nat)
    requires m <= 12
  {
    if m == 0 then 0 else DaysBeforeMonth(y, m - 1) + MonthLength(y, m - 1)
  }

  /** Days from 1970-01-01 to January 1st of year y (negative before 1970). */
  function DaysBeforeYear(y: int): int {
    365 * (y - 1970) + (y - 1969) / 4 - (y - 1901) / 100 + (y - 1601) / 400
  }

  datatype CivilDate = CivilDate(year: int, month: nat, day: nat)

  predicate ValidDate(c: CivilDate) {
    c.month < 12 && 1 <= c.day <= MonthLength(c.year, c.month)
  }

  /** Midnight at the start of `new Date(year, month, day)`. */
  function Midnight(year: int, month: nat, day: nat): int
    requires month < 12
  {
    (DaysBeforeYear(year) + DaysBeforeMonth(year, month) + day - 1) * Day
  }

  function TodayStart(now: CivilDate): int requires ValidDate(now) { Midnight(now.year, now.month, now.day) }
  function MonthStart(now: CivilDate): int requires ValidDate(now) { Midnight(now.year, now.month, 1) }
  function YearStart(now: CivilDate): int requires ValidDate(now) { Midnight(now.year, 0, 1) }

  /** Today's window starts within this month's, which starts within this year's. */
  lemma WindowsOrdered(now: CivilDate)
    requires ValidDate(now)
    ensures YearStart(now) <= MonthStart(now) <= TodayStart(now)
    ensures TodayStart(now) - MonthStart(now) == (now.day - 1) * Day
  {
  }

  // ---------------------------------------------------------------------
  // Totals
  // ---------------------------------------------------------------------

  function IsSuccessful(): Donation -> bool {
    (d: Donation) => d.status == Successful
  }

  /** `d => new Date(d.date) >= start` */
  function Since(start: int): Donation -> bool {
    (d: Donation) => d.date >= start
  }

  function SuccessfulSince(start: int): Donation -> bool {
    (d: Donation) => d.status == Successful && d.date >= start
  }

  /** `reduce((acc, curr) => acc + Number(curr.amount), 0)` */
  function Sum(ds: seq<Donation>): int
    decreases |ds|
  {
    if ds == [] then 0 else ds[0].amount + Sum(ds[1..])
  }

  predicate NonNegativeAmounts(ds: seq<Donation>) {
    forall i :: 0 <= i < |ds| ==> ds[i].amount >= 0
  }

  datatype Stats = Stats(today: int, month: int, year: int, todayCount: nat)

  const NoStats: Stats := Stats(0, 0, 0, 0)

  function ComputeStats(donors: seq<Donation>, now: CivilDate): Stats
    requires ValidDate(now)
  {
    var successful := Filter(donors, IsSuccessful());
    var todayDonations := Filter(successful, Since(TodayStart(now)));
    var monthDonations := Filter(successful, Since(MonthStart(now)));
    var yearDonations := Filter(successful, Since(YearStart(now)));
    Stats(Sum(todayDonations), Sum(monthDonations), Sum(yearDonations), |todayDonations|)
  }

  /** Dropping elements from a list of non-negative amounts can only lower its total. */
  lemma {:induction false} SumOfFilterAtMost(ds: seq<Donation>, keep: Donation -> bool)
    requires NonNegativeAmounts(ds)
    ensures 0 <= Sum(Filter(ds, keep)) <= Sum(ds)
    decreases |ds|
  {
    if ds != [] {
      assert NonNegativeAmounts(ds[1..]) by {
        forall i | 0 <= i < |ds| - 1 ensures ds[1..][i].amount >= 0 {
          assert ds[1..][i] == ds[i + 1];
        }
      }
      assert ds[0].amount >= 0;
      SumOfFilterAtMost(ds[1..], keep);
      var rest := Filter(ds[1..], keep);
      if keep(ds[0]) {
        assert Filter(ds, keep) == [ds[0]] + rest;
        assert Filter(ds, keep)[1..] == rest;
        assert Sum(Filter(ds, keep)) == ds[0].amount + Sum(rest);
      } else {
        assert Filter(ds, keep) == rest;
      }
    }
  }

  /** A later window start keeps fewer donations, and with non-negative amounts a smaller total. */
  lemma {:induction false} LaterWindowSmaller(ds: seq<Donation>, later: int, earlier: int)
    requires later >= earlier
    requires NonNegativeAmounts(ds)
    ensures forall d :: d in Filter(ds, Since(later)) ==> d in Filter(ds, Since(earlier))
    ensures 0 <= Sum(Filter(ds, Since(later))) <= Sum(Filter(ds, Since(earlier)))
  {
    var wide := Filter(ds, Since(earlier));
    FilterFilter(ds, Since(earlier), Since(later), Since(later));
    SumOfFilterAtMost(wide, Since(later));
  }

  /**
   * The count is the number of today's successful donations and each total
   * is exactly the sum over the successful donations dated at or after its
   * window start, whatever the amounts; with non-negative amounts the totals
   * are also ordered, 0 <= today <= month <= year.
   */
  lemma StatsSpec(donors: seq<Donation>, now: CivilDate)
    requires ValidDate(now)
    ensures var s := ComputeStats(donors, now);
      && s.todayCount == |Filter(donors, SuccessfulSince(TodayStart(now)))|
      && s.today == Sum(Filter(donors, SuccessfulSince(TodayStart(now))))
      && s.month == Sum(Filter(donors, SuccessfulSince(MonthStart(now))))
      && s.year == Sum(Filter(donors, SuccessfulSince(YearStart(now))))
    ensures NonNegativeAmounts(donors) ==>
      var s := ComputeStats(donors, now);
      0 <= s.today <= s.month <= s.year
  {
    FilterFilter(donors, IsSuccessful(), Since(TodayStart(now)), SuccessfulSince(TodayStart(now)));
    FilterFilter(donors, IsSuccessful(), Since(MonthStart(now)), SuccessfulSince(MonthStart(now)));
    FilterFilter(donors, IsSuccessful(), Since(YearStart(now)), SuccessfulSince(YearStart(now)));
    if NonNegativeAmounts(donors) {
      var successful := Filter(donors, IsSuccessful());
      assert NonNegativeAmounts(successful) by {
        forall i | 0 <= i < |successful|
          ensures successful[i].amount >= 0
        {
          assert successful[i] in donors;
        }
      }
      WindowsOrdered(now);
      LaterWindowSmaller(successful, TodayStart(now), MonthStart(now));
      LaterWindowSmaller(successful, MonthStart(now), YearStart(now));
    }
  }

  /**
   * A donation that is not successful changes no total and no count, wherever
   * it sits in the list (the store appends new donations at the end).
   */
  lemma UnsuccessfulIgnored(before: seq<Donation>, d: Donation, after: seq<Donation>, now: CivilDate)
    requires ValidDate(now)
    requires d.status != Successful
    ensures ComputeStats(before + [d] + after, now) == ComputeStats(before + after, now)
  {
    FilterSkip(before, d, after, IsSuccessful());
  }

  // ---------------------------------------------------------------------
  // Newest five
  // ---------------------------------------------------------------------

  const RecentCount: nat := 5

  function DonationDate(): Donation -> int { (d: Donation) => d.date }
  function RegistrationDate(): Devotee -> int { (d: Devotee) => d.registrationDate }

  /** `[...donors].sort(newest first).slice(0, 5)`, of any status. */
  function RecentDonations(donors: seq<Donation>): seq<Donation> {
    Newest(donors, DonationDate(), RecentCount)
  }

  function RecentDevotees(devotees: seq<Devotee>): seq<Devotee> {
    Newest(devotees, RegistrationDate(), RecentCount)
  }

  /**
   * At most five donations (fewer only when fewer exist), newest first, taken
   * from the fetched list, none of those left out newer than one shown.
   */
  lemma RecentDonationsSpec(donors: seq<Donation>)
    ensures var r := RecentDonations(donors);
      && |r| == (if |donors| < 5 then |donors| else 5)
      && (forall i, j :: 0 <= i < j < |r| ==> r[i].date >= r[j].date)
      && multiset(r) <= multiset(donors)
      && forall x, y :: x in donors && x !in r && y in r ==> y.date >= x.date
  {
    NewestSpec(donors, DonationDate(), RecentCount);
  }

  /** The same for registrations, by registration date. */
  lemma RecentDevoteesSpec(devotees: seq<Devotee>)
    ensures var r := RecentDevotees(devotees);
      && |r| == (if |devotees| < 5 then |devotees| else 5)
      && (forall i, j :: 0 <= i < j < |r| ==> r[i].registrationDate >= r[j].registrationDate)
      && multiset(r) <= multiset(devotees)
      && forall x, y :: x in devotees && x !in r && y in r ==> y.registrationDate >= x.registrationDate
  {
    NewestSpec(devotees, RegistrationDate(), RecentCount);
  }

  // ---------------------------------------------------------------------
  // What the page shows
  // ---------------------------------------------------------------------

  datatype DashboardView = DashboardView(stats: Stats, recentDonations: seq<Donation>, recentDevotees: seq<Devotee>)

  /**
   * The state after the mount effect: computed from both fetched lists, or
   * the initial zeros and empty lists when either fetch failed.
   */
  function Load(donors: Result<seq<Donation>>, devotees: Result<seq<Devotee>>, now: CivilDate): (v: DashboardView)
    requires ValidDate(now)
    ensures donors.Err? || devotees.Err? ==> v == DashboardView(NoStats, [], [])
    ensures donors.Ok? && devotees.Ok? ==>
      v.stats == ComputeStats(donors.value, now)
      && v.recentDonations == RecentDonations(donors.value)
      && v.recentDevotees == RecentDevotees(devotees.value)
  {
    if donors.Err? || devotees.Err? then DashboardView(NoStats, [], [])
    else DashboardView(ComputeStats(donors.value, now), RecentDonations(donors.value), RecentDevotees(devotees.value))
  }
}
