/**
 * The admin donor records page: the fetched list, a status filter and a
 * date range, the filtered list shown in the table, and its CSV export.
 * A date input holds either nothing ('') or a calendar date, read as the
 * instant of its midnight in milliseconds.
 */
module DonorRecords {
  import opened Base
  import opened Js
  import opened Types
  import opened Seqs
  import Csv

  datatype StatusFilter = AllStatuses | Only(status: DonationStatus)

  /** `d => d.status === statusFilter` */
  function KeepStatus(status: DonationStatus): Donation -> bool {
    (d: Donation) => d.status == status
  }

  /** `d => new Date(d.date) >= new Date(startDate)` */
  function KeepFrom(start: int): Donation -> bool {
    (d: Donation) => d.date >= start
  }

  /** `d => new Date(d.date) <= end`, end being the end date advanced by one day. */
  function KeepUntil(end: int): Donation -> bool {
    (d: Donation) => d.date <= end
  }

  /** The three filters together: an unset filter keeps everything. */
  predicate Matches(f: StatusFilter, start: Option<int>, end: Option<int>, d: Donation) {
    && (f.AllStatuses? || d.status == f.status)
    && (start.None? || d.date >= start.value)
    && (end.None? || d.date <= end.value + Day)
  }

  function MatchesAll(f: StatusFilter, start: Option<int>, end: Option<int>): Donation -> bool {
    (d: Donation) => Matches(f, start, end, d)
  }

  /** The list handleFilter shows. */
  function Filtered(all: seq<Donation>, f: StatusFilter, start: Option<int>, end: Option<int>): seq<Donation> {
    Filter(all, MatchesAll(f, start, end))
  }

  /**
   * The filtered list keeps the order of the full list, and a record is
   * shown, once per copy in the full list, exactly when its status matches
   * (any status for 'all'), it is not before the start date, and it is not
   * after the end of the end date's day.
   */
  lemma FilteredSpec(all: seq<Donation>, f: StatusFilter, start: Option<int>, end: Option<int>)
    ensures IsSubsequence(Filtered(all, f, start, end), all)
    ensures forall d :: d in Filtered(all, f, start, end) <==>
      && d in all
      && (f.Only? ==> d.status == f.status)
      && (start.Some? ==> d.date >= start.value)
      && (end.Some? ==> d.date <= end.value + Day)
    ensures forall d: Donation :: (
      var shown := (f.Only? ==> d.status == f.status) && (start.Some? ==> d.date >= start.value)
        && (end.Some? ==> d.date <= end.value + Day);
      multiset(Filtered(all, f, start, end))[d] == if shown then multiset(all)[d] else 0)
  {
    FilterIsSubsequence(all, MatchesAll(f, start, end));
    FilterMultiset(all, MatchesAll(f, start, end));
  }

  /** With no filter set nothing is removed. */
  lemma NoFilterShowsAll(all: seq<Donation>)
    ensures Filtered(all, AllStatuses, None, None) == all
  {
    FilterKeepsAll(all, MatchesAll(AllStatuses, None, None));
  }

  /**
   * The end date covers its whole calendar day: a record up to one day after
   * the end date's midnight is kept, and a later one is not.
   */
  lemma EndDayIncluded(all: seq<Donation>, end: int, d: Donation)
    requires d in all
    ensures end <= d.date <= end + Day ==> d in Filtered(all, AllStatuses, None, Some(end))
    ensures d.date > end + Day ==> d !in Filtered(all, AllStatuses, None, Some(end))
  {
  }

  // ---------------------------------------------------------------------
  // CSV export
  // ---------------------------------------------------------------------

  /** The fields of a fetched donor record, in the order get-donors builds it. */
  const DonorKeys: seq<string> := ["id", "amount", "fullName", "email", "mobile", "address1", "address2",
    "city", "state", "pincode", "status", "date", "paymentId"]

  /**
   * A donor as the page holds it after fetching: the date as the ISO text
   * `iso` renders, and a missing payment id as null.
   */
  function DonorObject(d: Donation, iso: int -> string): (r: Csv.FlatRecord)
    ensures Csv.Keys(r) == DonorKeys
  {
    [("id", Str(d.id)), ("amount", Num(d.amount)), ("fullName", Str(d.fullName)), ("email", Str(d.email)),
     ("mobile", Str(d.mobile)), ("address1", Str(d.address1)), ("address2", Str(d.address2)),
     ("city", Str(d.city)), ("state", Str(d.state)), ("pincode", Str(d.pincode)),
     ("status", Str(StatusName(d.status))), ("date", Str(iso(d.date))),
     ("paymentId", if d.paymentId.Some? then Str(d.paymentId.value) else Null)]
  }

  function DonorObjects(ds: seq<Donation>, iso: int -> string): (rs: seq<Csv.FlatRecord>)
    ensures |rs| == |ds|
    ensures forall i :: 0 <= i < |ds| ==> rs[i] == DonorObject(ds[i], iso)
  {
    seq(|ds|, i requires 0 <= i < |ds| => DonorObject(ds[i], iso))
  }

  /**
   * The export of a non-empty list has the header line of the donor fields
   * and then exactly one line per shown donor, in the order shown.
   */
  lemma DonorCsvLines(ds: seq<Donation>, iso: int -> string)
    requires |ds| > 0
    ensures Csv.DownloadCsv(DonorObjects(ds, iso)).Some?
    ensures var lines := Split(Csv.DownloadCsv(DonorObjects(ds, iso)).value, '\n');
      && |lines| == |ds| + 1
      && lines[0] == Join(',', DonorKeys)
      && forall i :: 0 <= i < |ds| ==> lines[i + 1] == Csv.Row(DonorObject(ds[i], iso), DonorKeys)
  {
    var data := DonorObjects(ds, iso);
    assert Csv.Keys(data[0]) == DonorKeys;
    assert forall k :: k in DonorKeys ==> '\n' !in k;
    Csv.DownloadCsvLines(data);
  }

  // ---------------------------------------------------------------------
  // The page's state
  // ---------------------------------------------------------------------

  class DonorRecordsPage {
    var allDonors: seq<Donation>
    var filteredDonors: seq<Donation>
    var statusFilter: StatusFilter
    var startDate: Option<int>
    var endDate: Option<int>
    var isLoading: bool

    constructor ()
      ensures allDonors == [] && filteredDonors == []
      ensures statusFilter == AllStatuses && startDate == None && endDate == None
      ensures isLoading
    {
      allDonors := [];
      filteredDonors := [];
      statusFilter := AllStatuses;
      startDate := None;
      endDate := None;
      isLoading := true;
    }

    /** The mount effect: a fetched list replaces both lists; a failure is logged and changes neither. */
    method FetchDonors(fetched: Result<seq<Donation>>)
      modifies this`allDonors, this`filteredDonors, this`isLoading
      ensures fetched.Ok? ==> allDonors == fetched.value && filteredDonors == fetched.value
      ensures fetched.Err? ==> allDonors == old(allDonors) && filteredDonors == old(filteredDonors)
      ensures !isLoading
    {
      isLoading := true;
      if fetched.Ok? {
        allDonors := fetched.value;
        filteredDonors := fetched.value;
      }
      isLoading := false;
    }

    method SetStatusFilter(f: StatusFilter)
      modifies this`statusFilter
      ensures statusFilter == f
    {
      statusFilter := f;
    }

    method SetStartDate(date: Option<int>)
      modifies this`startDate
      ensures startDate == date
    {
      startDate := date;
    }

    method SetEndDate(date: Option<int>)
      modifies this`endDate
      ensures endDate == date
    {
      endDate := date;
    }

    /** Narrows the full list by each filter that is set, in turn. */
    method HandleFilter()
      modifies this`filteredDonors
      ensures filteredDonors == Filtered(allDonors, statusFilter, startDate, endDate)
    {
      var f, start, end := statusFilter, startDate, endDate;
      ghost var byStatus := MatchesAll(f, None, None);
      ghost var byStart := MatchesAll(f, start, None);
      var donors := allDonors;
      if f.Only? {
        donors := Filter(donors, KeepStatus(f.status));
        FilterAgrees(allDonors, KeepStatus(f.status), byStatus);
      } else {
        FilterKeepsAll(allDonors, byStatus);
      }
      assert donors == Filter(allDonors, byStatus);
      if start.Some? {
        donors := Filter(donors, KeepFrom(start.value));
        FilterFilter(allDonors, byStatus, KeepFrom(start.value), byStart);
      } else {
        FilterAgrees(allDonors, byStatus, byStart);
      }
      assert donors == Filter(allDonors, byStart);
      if end.Some? {
        var endOfDay := end.value + Day;
        donors := Filter(donors, KeepUntil(endOfDay));
        FilterFilter(allDonors, byStart, KeepUntil(endOfDay), MatchesAll(f, start, end));
      } else {
        FilterAgrees(allDonors, byStart, MatchesAll(f, start, end));
      }
      filteredDonors := donors;
    }

    /** Resets the three filters and shows the full list again. */
    method ClearFilters()
      modifies this`statusFilter, this`startDate, this`endDate, this`filteredDonors
      ensures statusFilter == AllStatuses && startDate == None && endDate == None
      ensures filteredDonors == allDonors
    {
      statusFilter := AllStatuses;
      startDate := None;
      endDate := None;
      filteredDonors := allDonors;
    }

    /** The "Download as CSV" button: the text for exactly the shown list, or none when it is empty. */
    method DownloadCsvText(iso: int -> string) returns (text: Option<string>)
      ensures text == Csv.DownloadCsv(DonorObjects(filteredDonors, iso))
      ensures text.None? <==> filteredDonors == []
    {
      text := Csv.DownloadCsv(DonorObjects(filteredDonors, iso));
    }
  }
}
