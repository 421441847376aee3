/**
 * The admin devotee records page: the registrations fetched once when the
 * page is created, a registration date range, the filtered list shown in the
 * table, and its CSV export. A date input holds either nothing ('') or the
 * instant of a calendar date's midnight in milliseconds.
 */
module DevoteeRecords {
  import opened Base
  import opened Js
  import opened Types
  import opened Seqs
  import Csv

  /** `d => new Date(d.registrationDate) >= new Date(startDate)` */
  function KeepFrom(start: int): Devotee -> bool {
    (d: Devotee) => d.registrationDate >= start
  }

  /** `d => new Date(d.registrationDate) <= new Date(endDate)` */
  function KeepUntil(end: int): Devotee -> bool {
    (d: Devotee) => d.registrationDate <= end
  }

  /** Both bounds together; the end bound is the end date's midnight itself. */
  predicate Matches(start: Option<int>, end: Option<int>, d: Devotee) {
    && (start.None? || d.registrationDate >= start.value)
    && (end.None? || d.registrationDate <= end.value)
  }

  function MatchesAll(start: Option<int>, end: Option<int>): Devotee -> bool {
    (d: Devotee) => Matches(start, end, d)
  }

  function Filtered(all: seq<Devotee>, start: Option<int>, end: Option<int>): seq<Devotee> {
    Filter(all, MatchesAll(start, end))
  }

  /**
   * The filtered list keeps the order of the full list, and a registration is
   * shown, once per copy in the full list, exactly when it is within both
   * bounds that are set.
   */
  lemma FilteredSpec(all: seq<Devotee>, start: Option<int>, end: Option<int>)
    ensures IsSubsequence(Filtered(all, start, end), all)
    ensures forall d :: d in Filtered(all, start, end) <==>
      && d in all
      && (start.Some? ==> d.registrationDate >= start.value)
      && (end.Some? ==> d.registrationDate <= end.value)
    ensures forall d: Devotee :: (
      var shown := (start.Some? ==> d.registrationDate >= start.value) && (end.Some? ==> d.registrationDate <= end.value);
      multiset(Filtered(all, start, end))[d] == if shown then multiset(all)[d] else 0)
  {
    FilterIsSubsequence(all, MatchesAll(start, end));
    FilterMultiset(all, MatchesAll(start, end));
  }

  /** With no bound set nothing is removed. */
  lemma NoFilterShowsAll(all: seq<Devotee>)
    ensures Filtered(all, None, None) == all
  {
    FilterKeepsAll(all, MatchesAll(None, None));
  }

  /**
   * Unlike the donor page, the end date is not advanced: a registration made
   * later on the end day itself (even one millisecond after midnight) is not shown.
   */
  lemma EndDayExcluded(all: seq<Devotee>, end: int, d: Devotee)
    requires d in all
    ensures d.registrationDate <= end ==> d in Filtered(all, None, Some(end))
    ensures end < d.registrationDate < end + Day ==> d !in Filtered(all, None, Some(end))
  {
  }

  // ---------------------------------------------------------------------
  // CSV export
  // ---------------------------------------------------------------------

  /** The fields of a fetched registration, in the order get-devotees builds it. */
  const DevoteeKeys: seq<string> := ["id", "name", "email", "mobile", "birthDate", "registrationDate"]

  /** A registration as the page holds it after fetching, its date as the ISO text `iso` renders. */
  function DevoteeObject(d: Devotee, iso: int -> string): (r: Csv.FlatRecord)
    ensures Csv.Keys(r) == DevoteeKeys
  {
    [("id", Str(d.id)), ("name", Str(d.name)), ("email", Str(d.email)), ("mobile", Str(d.mobile)),
     ("birthDate", Str(d.birthDate)), ("registrationDate", Str(iso(d.registrationDate)))]
  }

  function DevoteeObjects(ds: seq<Devotee>, iso: int -> string): (rs: seq<Csv.FlatRecord>)
    ensures |rs| == |ds|
    ensures forall i :: 0 <= i < |ds| ==> rs[i] == DevoteeObject(ds[i], iso)
  {
    seq(|ds|, i requires 0 <= i < |ds| => DevoteeObject(ds[i], iso))
  }

  /** The export of a non-empty list: the header line, then one line per shown registration, in order. */
  lemma DevoteeCsvLines(ds: seq<Devotee>, iso: int -> string)
    requires |ds| > 0
    ensures Csv.DownloadCsv(DevoteeObjects(ds, iso)).Some?
    ensures var lines := Split(Csv.DownloadCsv(DevoteeObjects(ds, iso)).value, '\n');
      && |lines| == |ds| + 1
      && lines[0] == Join(',', DevoteeKeys)
      && forall i :: 0 <= i < |ds| ==> lines[i + 1] == Csv.Row(DevoteeObject(ds[i], iso), DevoteeKeys)
  {
    var data := DevoteeObjects(ds, iso);
    assert Csv.Keys(data[0]) == DevoteeKeys;
    assert forall k :: k in DevoteeKeys ==> '\n' !in k;
    Csv.DownloadCsvLines(data);
  }

  // ---------------------------------------------------------------------
  // The page's state
  // ---------------------------------------------------------------------

  class DevoteeRecordsPage {
    /** Fetched once when the page is created and never replaced. */
    const allDevotees: seq<Devotee>
    var filteredDevotees: seq<Devotee>
    var startDate: Option<int>
    var endDate: Option<int>

    constructor (fetched: seq<Devotee>)
      ensures allDevotees == fetched && filteredDevotees == fetched
      ensures startDate == None && endDate == None
    {
      allDevotees := fetched;
      filteredDevotees := fetched;
      startDate := None;
      endDate := None;
    }

    method SetStartDate(date: Option<int>)
      modifies this`startDate
      ensures startDate == date
    {
      startDate := date;
    }

    method SetEndDate(date: Option<int>)
      modifies this`endDate
      ensures endDate == date
    {
      endDate := date;
    }

    /** Narrows the full list by each bound that is set, in turn. */
    method HandleFilter()
      modifies this`filteredDevotees
      ensures filteredDevotees == Filtered(allDevotees, startDate, endDate)
    {
      var start, end := startDate, endDate;
      ghost var byStart := MatchesAll(start, None);
      var devotees := allDevotees;
      if start.Some? {
        devotees := Filter(devotees, KeepFrom(start.value));
        FilterAgrees(allDevotees, KeepFrom(start.value), byStart);
      } else {
        FilterKeepsAll(allDevotees, byStart);
      }
      assert devotees == Filter(allDevotees, byStart);
      if end.Some? {
        devotees := Filter(devotees, KeepUntil(end.value));
        FilterFilter(allDevotees, byStart, KeepUntil(end.value), MatchesAll(start, end));
      } else {
        FilterAgrees(allDevotees, byStart, MatchesAll(start, end));
      }
      filteredDevotees := devotees;
    }

    /** Clears both bounds and shows the full list again. */
    method ClearFilters()
      modifies this`startDate, this`endDate, this`filteredDevotees
      ensures startDate == None && endDate == None
      ensures filteredDevotees == allDevotees
    {
      startDate := None;
      endDate := None;
      filteredDevotees := allDevotees;
    }

    /** The "Download as CSV" button: the text for exactly the shown list, or none when it is empty. */
    method DownloadCsvText(iso: int -> string) returns (text: Option<string>)
      ensures text == Csv.DownloadCsv(DevoteeObjects(filteredDevotees, iso))
      ensures text.None? <==> filteredDevotees == []
    {
      text := Csv.DownloadCsv(DevoteeObjects(filteredDevotees, iso));
    }
  }
}
