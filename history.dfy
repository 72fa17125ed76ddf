/**
 The prediction history list: a search-and-province filter over the
 records, a page of six of the filtered records, and the pager.
 */
module History {
  import opened Text

  datatype Trend = Up | Down

  datatype Record = Record(
    id: nat, date: string, time: string, location: string, fullLocation: string,
    province: string, city: string, district: string,
    predictedPrice: nat, confidence: nat, trend: Trend, priceChange: string)

  /** The six built-in records, in display order. */
  const MockHistory: seq<Record> := [
    Record(1, "2025-11-03", "14:32", "绿谷花园", "北京市朝阳区绿谷花园", "北京市", "北京市", "朝阳区", 4580000, 87, Up, "+12%"),
    Record(2, "2025-11-02", "16:45", "滨江社区", "上海市浦东新区滨江社区", "上海市", "上海市", "浦东新区", 6200000, 92, Up, "+15%"),
    Record(3, "2025-11-01", "10:15", "科技园东区", "广州市天河区科技园东区", "广东省", "广州市", "天河区", 3800000, 78, Down, "-3%"),
    Record(4, "2025-10-31", "09:20", "大学城", "深圳市南山区大学城", "广东省", "深圳市", "南山区", 5400000, 85, Up, "+8%"),
    Record(5, "2025-10-30", "11:50", "湖景雅苑", "杭州市西湖区湖景雅苑", "浙江省", "杭州市", "西湖区", 4100000, 81, Up, "+6%"),
    Record(6, "2025-10-29", "15:30", "中央商务区", "南京市鼓楼区中央商务区", "江苏省", "南京市", "鼓楼区", 3950000, 88, Up, "+10%")
  ]

  const ItemsPerPage: nat := 6

  /** The province filter's value that lets every province through. */
  const AllProvinces := "all"

  /** The filter's test for one record. */
  predicate Matches(r: Record, searchTerm: string, filterBy: string) {
    && Contains(Lower(r.fullLocation), Lower(searchTerm))
    && (filterBy == AllProvinces || r.province == filterBy)
  }

  /** `historyData.filter(...)` */
  function Filtered(data: seq<Record>, searchTerm: string, filterBy: string): seq<Record> {
    if data == [] then []
    else
      var rest := Filtered(data[1..], searchTerm, filterBy);
      if Matches(data[0], searchTerm, filterBy) then [data[0]] + rest else rest
  }

  /** `a` is `b` with some elements left out, the rest in their original order. */
  ghost predicate IsSubsequence<T>(a: seq<T>, b: seq<T>)
    decreases |b|
  {
    a == [] || (b != [] && ((a[0] == b[0] && IsSubsequence(a[1..], b[1..])) || IsSubsequence(a, b[1..])))
  }

  lemma {:induction false} SubsequenceIsShorter<T>(a: seq<T>, b: seq<T>)
    requires IsSubsequence(a, b)
    ensures |a| <= |b|
    decreases |b|
  {
    if a != [] {
      if a[0] == b[0] && IsSubsequence(a[1..], b[1..]) {
        SubsequenceIsShorter(a[1..], b[1..]);
      } else {
        SubsequenceIsShorter(a, b[1..]);
      }
    }
  }

  /** The filter keeps source order: its result is a subsequence of the records. */
  lemma {:induction false} FilteredIsSubsequence(data: seq<Record>, searchTerm: string, filterBy: string)
    ensures IsSubsequence(Filtered(data, searchTerm, filterBy), data)
    ensures |Filtered(data, searchTerm, filterBy)| <= |data|
  {
    var f := Filtered(data, searchTerm, filterBy);
    if data != [] {
      FilteredIsSubsequence(data[1..], searchTerm, filterBy);
      if Matches(data[0], searchTerm, filterBy) {
        assert f[0] == data[0] && f[1..] == Filtered(data[1..], searchTerm, filterBy);
      } else {
        assert f == Filtered(data[1..], searchTerm, filterBy);
      }
    }
    SubsequenceIsShorter(f, data);
  }

  /** A record is listed exactly when it is one of the records and passes both tests. */
  lemma {:induction false} FilteredMembers(data: seq<Record>, searchTerm: string, filterBy: string, r: Record)
    ensures r in Filtered(data, searchTerm, filterBy) <==> r in data && Matches(r, searchTerm, filterBy)
  {
    if data != [] {
      FilteredMembers(data[1..], searchTerm, filterBy, r);
      assert data == [data[0]] + data[1..];
    }
  }

  /**
   The filter works record by record: filtering two lists one after the other
   gives the two filtered lists one after the other, so each record is kept
   as often as it occurs.
   */
  lemma {:induction false} FilteredAppend(a: seq<Record>, b: seq<Record>, searchTerm: string, filterBy: string)
    ensures Filtered(a + b, searchTerm, filterBy) == Filtered(a, searchTerm, filterBy) + Filtered(b, searchTerm, filterBy)
  {
    if a == [] {
      assert a + b == b;
    } else {
      assert (a + b)[0] == a[0];
      assert (a + b)[1..] == a[1..] + b;
      FilteredAppend(a[1..], b, searchTerm, filterBy);
    }
  }

  /** Every listed record's folded full location includes the folded search term, and
      its province is the chosen one unless every province is allowed. */
  lemma FilteredRecordsMatch(data: seq<Record>, searchTerm: string, filterBy: string)
    ensures forall r :: r in Filtered(data, searchTerm, filterBy) ==>
      Contains(Lower(r.fullLocation), Lower(searchTerm))
      && (filterBy != AllProvinces ==> r.province == filterBy)
  {
    forall r | r in Filtered(data, searchTerm, filterBy)
      ensures Contains(Lower(r.fullLocation), Lower(searchTerm))
      ensures filterBy != AllProvinces ==> r.province == filterBy
    {
      FilteredMembers(data, searchTerm, filterBy, r);
    }
  }

  /** An empty search with every province allowed lists every record. */
  lemma {:induction false} NoFilterKeepsAll(data: seq<Record>)
    ensures Filtered(data, "", AllProvinces) == data
  {
    if data != [] {
      assert Lower("") == "";
      ContainsEmpty(Lower(data[0].fullLocation));
      NoFilterKeepsAll(data[1..]);
    }
  }

  /** `Math.ceil(count / itemsPerPage)` */
  function PageCount(count: nat): (r: nat)
    ensures r * ItemsPerPage >= count
    ensures r > 0 ==> (r - 1) * ItemsPerPage < count
  {
    (count + ItemsPerPage - 1) / ItemsPerPage
  }

  /** JavaScript's normalisation of a `slice` bound: negative bounds count from the end. */
  function SliceBound(i: int, len: nat): (r: nat)
    ensures r <= len
  {
    if i < 0 then (if len + i < 0 then 0 else len + i) else if i > len then len else i
  }

  /** `s.slice(start, end)` */
  function Slice<T>(s: seq<T>, start: int, end: int): seq<T> {
    var a, b := SliceBound(start, |s|), SliceBound(end, |s|);
    if a < b then s[a..b] else []
  }

  function Min(a: int, b: int): int { if a < b then a else b }

  function Max(a: int, b: int): int { if a < b then b else a }

  /** `filteredData.slice((page - 1) * itemsPerPage, page * itemsPerPage)` */
  function Paginated(filtered: seq<Record>, page: int): seq<Record> {
    Slice(filtered, (page - 1) * ItemsPerPage, page * ItemsPerPage)
  }

  /** A page is the run of at most six filtered records that starts at `(page - 1) * 6`. */
  lemma PageIsWindow(filtered: seq<Record>, page: int)
    requires page >= 1
    ensures var lo := Min((page - 1) * ItemsPerPage, |filtered|);
      Paginated(filtered, page) == filtered[lo..Min(page * ItemsPerPage, |filtered|)]
    ensures |Paginated(filtered, page)| <= ItemsPerPage
  {
  }

  /** Record `i` of the filtered list appears on page `i / 6 + 1`, at position `i % 6`. */
  lemma EveryRecordOnItsPage(filtered: seq<Record>, i: nat)
    requires i < |filtered|
    ensures var page := i / ItemsPerPage + 1;
      i % ItemsPerPage < |Paginated(filtered, page)|
      && Paginated(filtered, page)[i % ItemsPerPage] == filtered[i]
  {
    var page := i / ItemsPerPage + 1;
    assert (page - 1) * ItemsPerPage + i % ItemsPerPage == i;
    PageIsWindow(filtered, page);
  }

  /** The first number in the range label. */
  function RangeStart(page: int): int {
    (page - 1) * ItemsPerPage + 1
  }

  /** The last number in the range label. */
  function RangeEnd(page: int, count: nat): int {
    Min(page * ItemsPerPage, count)
  }

  /** On a page that holds records, the label names exactly the records shown. */
  lemma LabelMatchesPage(filtered: seq<Record>, page: int)
    requires page >= 1 && (page - 1) * ItemsPerPage < |filtered|
    ensures 1 <= RangeStart(page) <= RangeEnd(page, |filtered|) <= |filtered|
    ensures RangeEnd(page, |filtered|) - RangeStart(page) + 1 == |Paginated(filtered, page)|
    ensures Paginated(filtered, page) == filtered[RangeStart(page) - 1..RangeEnd(page, |filtered|)]
  {
    PageIsWindow(filtered, page);
  }

  /**
   A page past the end of the filtered list (reachable because the page
   count is taken over all records, not the filtered ones) shows no record,
   and its label's start exceeds its end.
   */
  lemma PagePastFilteredIsBlank(filtered: seq<Record>, page: int)
    requires page >= 1 && (page - 1) * ItemsPerPage >= |filtered|
    ensures Paginated(filtered, page) == []
    ensures RangeStart(page) > RangeEnd(page, |filtered|)
  {
  }

  /** The pager is rendered only when the filtered list does not fit on one page. */
  predicate PaginationShown(filteredCount: nat) {
    filteredCount > ItemsPerPage
  }

  predicate PreviousDisabled(page: int) {
    page == 1
  }

  predicate NextDisabled(page: int, totalPages: nat) {
    page == totalPages
  }

  /** `Math.max(1, currentPage - 1)` */
  function PreviousPage(page: int): int {
    Max(1, page - 1)
  }

  /** `Math.min(totalPages, currentPage + 1)` */
  function NextPage(page: int, totalPages: nat): int {
    Min(totalPages, page + 1)
  }

  /**
   Both moves keep the page within 1..totalPages, and each button is
   disabled exactly when its move would leave the page where it is.
   */
  lemma PageMovesClamped(page: int, totalPages: nat)
    requires 1 <= page <= totalPages
    ensures 1 <= PreviousPage(page) <= totalPages && 1 <= NextPage(page, totalPages) <= totalPages
    ensures PreviousPage(page) == page <==> PreviousDisabled(page)
    ensures NextPage(page, totalPages) == page <==> NextDisabled(page, totalPages)
    ensures !PreviousDisabled(page) ==> PreviousPage(page) == page - 1
    ensures !NextDisabled(page, totalPages) ==> NextPage(page, totalPages) == page + 1
  {
  }

  /** When the pager shows, there are at least two pages, so every move has room. */
  lemma PagerHasTwoPages(data: seq<Record>, searchTerm: string, filterBy: string)
    requires PaginationShown(|Filtered(data, searchTerm, filterBy)|)
    ensures PageCount(|data|) >= 2
  {
    FilteredIsSubsequence(data, searchTerm, filterBy);
  }

  /** The six built-in records fit one page: the pager never shows, whatever the filter. */
  lemma MockHistoryFitsOnePage(searchTerm: string, filterBy: string)
    ensures PageCount(|MockHistory|) == 1
    ensures !PaginationShown(|Filtered(MockHistory, searchTerm, filterBy)|)
    ensures Paginated(Filtered(MockHistory, searchTerm, filterBy), 1) == Filtered(MockHistory, searchTerm, filterBy)
  {
    FilteredIsSubsequence(MockHistory, searchTerm, filterBy);
  }

  /** The history view: its four state fields over a list of records (the component uses `MockHistory`). */
  class HistoryView {
    const historyData: seq<Record>
    var searchTerm: string
    var filterBy: string
    var currentPage: int
    var sortBy: string

    /** The current page is always one of the numbered page buttons (or 1 when there are none). */
    ghost predicate Valid()
      reads this
    {
      1 <= currentPage <= Max(1, TotalPages())
    }

    constructor (data: seq<Record>)
      ensures historyData == data
      ensures searchTerm == "" && filterBy == AllProvinces && currentPage == 1 && sortBy == "date-desc"
      ensures Valid()
    {
      historyData := data;
      searchTerm, filterBy, currentPage, sortBy := "", AllProvinces, 1, "date-desc";
    }

    /** Counted over all records, not the filtered ones. */
    function TotalPages(): nat
      reads this
    {
      PageCount(|historyData|)
    }

    function FilteredData(): seq<Record>
      reads this
    {
      Filtered(historyData, searchTerm, filterBy)
    }

    function PaginatedData(): seq<Record>
      reads this
    {
      Paginated(FilteredData(), currentPage)
    }

    method SetSearchTerm(value: string)
      requires Valid()
      modifies this
      ensures Valid()
      ensures searchTerm == value && filterBy == old(filterBy)
      ensures currentPage == old(currentPage) && sortBy == old(sortBy)
    {
      searchTerm := value;
    }

    method SetFilterBy(value: string)
      requires Valid()
      modifies this
      ensures Valid()
      ensures filterBy == value && searchTerm == old(searchTerm)
      ensures currentPage == old(currentPage) && sortBy == old(sortBy)
    {
      filterBy := value;
    }

    /** The sort order is stored but never applied: the list keeps source order. */
    method SetSortBy(value: string)
      requires Valid()
      modifies this
      ensures Valid()
      ensures sortBy == value && searchTerm == old(searchTerm)
      ensures filterBy == old(filterBy) && currentPage == old(currentPage)
      ensures FilteredData() == old(FilteredData()) && PaginatedData() == old(PaginatedData())
    {
      sortBy := value;
    }

    method ClickPrevious()
      requires Valid() && PaginationShown(|FilteredData()|)
      modifies this
      ensures Valid()
      ensures currentPage == PreviousPage(old(currentPage))
      ensures searchTerm == old(searchTerm) && filterBy == old(filterBy) && sortBy == old(sortBy)
    {
      PagerHasTwoPages(historyData, searchTerm, filterBy);
      PageMovesClamped(currentPage, TotalPages());
      currentPage := Max(1, currentPage - 1);
    }

    method ClickNext()
      requires Valid() && PaginationShown(|FilteredData()|)
      modifies this
      ensures Valid()
      ensures currentPage == NextPage(old(currentPage), old(TotalPages()))
      ensures searchTerm == old(searchTerm) && filterBy == old(filterBy) && sortBy == old(sortBy)
    {
      PagerHasTwoPages(historyData, searchTerm, filterBy);
      PageMovesClamped(currentPage, TotalPages());
      currentPage := Min(TotalPages(), currentPage + 1);
    }

    /** One of the numbered buttons 1..totalPages. */
    method ClickPage(page: int)
      requires Valid() && PaginationShown(|FilteredData()|) && 1 <= page <= TotalPages()
      modifies this
      ensures Valid()
      ensures currentPage == page
      ensures searchTerm == old(searchTerm) && filterBy == old(filterBy) && sortBy == old(sortBy)
    {
      currentPage := page;
    }
  }

  /** Seven records need a second page: "next" moves there and shows the seventh. */
  method ExamplePaging() {
    var extra := MockHistory[0].(id := 7);
    var data := MockHistory + [extra];
    var h := new HistoryView(data);
    NoFilterKeepsAll(data);
    h.ClickNext();
    assert h.currentPage == 2;
    assert h.PaginatedData() == [extra];
  }
}
