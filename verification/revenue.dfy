// The seller's revenue dashboard: the sold items of the signed-in seller,
// narrowed by a year and by a date range, and the revenue totals over them.

module RevenueDashboard {
  import opened Wrappers
  import opened Text
  import opened Seqs
  import Orders

  type SoldItem = Orders.SoldItem

  /** Milliseconds in a day; a date picked in the range inputs stands for the
      day that begins at its timestamp. */
  const DayMs := 86400000

  /** The item's year, written in decimal, is the year typed in the filter
      box. `yearOf` is the calendar year of a timestamp in the browser's time
      zone. */
  predicate InYear(it: SoldItem, yearFilter: string, yearOf: int -> int) {
    IntToString(yearOf(it.createdAt)) == yearFilter
  }

  /** The year filter, which applies only when its box is not empty. */
  function ByYear(items: seq<SoldItem>, yearFilter: string, yearOf: int -> int): seq<SoldItem> {
    if yearFilter == "" then items else Filter(items, it => InYear(it, yearFilter, yearOf))
  }

  /** The range test as the dashboard writes it: the item's time lies between
      the first instants of the two picked days, both included. */
  predicate WithinAsWritten(createdAt: int, start: int, end: int) {
    start <= createdAt <= end
  }

  /** The range test with the end day counted whole: from the first instant
      of the start day up to the last instant of the end day. */
  predicate Within(createdAt: int, start: int, end: int) {
    start <= createdAt < end + DayMs
  }

  /** The date filter as the dashboard applies it, only when both dates are
      picked. `dayStart` is the timestamp at which a picked date begins. */
  function ByDatesAsWritten(items: seq<SoldItem>, startDate: string, endDate: string, dayStart: string -> int): seq<SoldItem> {
    if startDate == "" || endDate == "" then items
    else Filter(items, (it: SoldItem) => WithinAsWritten(it.createdAt, dayStart(startDate), dayStart(endDate)))
  }

  /** The date filter with the end day counted whole. */
  function ByDates(items: seq<SoldItem>, startDate: string, endDate: string, dayStart: string -> int): seq<SoldItem> {
    if startDate == "" || endDate == "" then items
    else Filter(items, (it: SoldItem) => Within(it.createdAt, dayStart(startDate), dayStart(endDate)))
  }

  /** The list shown after "Apply Filters": always computed afresh from the
      fetched items (none when nothing was fetched), year filter first. */
  function Applied(fetched: Option<seq<SoldItem>>, yearFilter: string, startDate: string, endDate: string,
                   yearOf: int -> int, dayStart: string -> int): seq<SoldItem>
  {
    ByDatesAsWritten(ByYear(fetched.GetOr([]), yearFilter, yearOf), startDate, endDate, dayStart)
  }

  /** The item passes every filter that is switched on. */
  predicate Passes(it: SoldItem, yearFilter: string, startDate: string, endDate: string,
                   yearOf: int -> int, dayStart: string -> int)
  {
    (yearFilter != "" ==> InYear(it, yearFilter, yearOf))
    && (startDate != "" && endDate != "" ==> WithinAsWritten(it.createdAt, dayStart(startDate), dayStart(endDate)))
  }

  /** The filtered list keeps the fetched order. */
  lemma AppliedSubsequence(fetched: Option<seq<SoldItem>>, yearFilter: string, startDate: string,
                           endDate: string, yearOf: int -> int, dayStart: string -> int)
    ensures IsSubsequence(Applied(fetched, yearFilter, startDate, endDate, yearOf, dayStart), fetched.GetOr([]))
  {
    var all := fetched.GetOr([]);
    var y := ByYear(all, yearFilter, yearOf);
    if yearFilter == "" {
      SubsequenceRefl(all);
    } else {
      FilterIsSubsequence(all, it => InYear(it, yearFilter, yearOf));
    }
    var d := ByDatesAsWritten(y, startDate, endDate, dayStart);
    if startDate == "" || endDate == "" {
      SubsequenceRefl(y);
    } else {
      FilterIsSubsequence(y, (it: SoldItem) => WithinAsWritten(it.createdAt, dayStart(startDate), dayStart(endDate)));
    }
    SubsequenceTransitive(d, y, all);
  }

  /** The filtered list holds exactly the fetched items that pass the
      filters that are on. */
  lemma AppliedMembership(fetched: Option<seq<SoldItem>>, yearFilter: string, startDate: string,
                          endDate: string, yearOf: int -> int, dayStart: string -> int)
    ensures forall it :: it in Applied(fetched, yearFilter, startDate, endDate, yearOf, dayStart) <==>
      it in fetched.GetOr([]) && Passes(it, yearFilter, startDate, endDate, yearOf, dayStart)
  {
    var all := fetched.GetOr([]);
    var y := ByYear(all, yearFilter, yearOf);
    var d := ByDatesAsWritten(y, startDate, endDate, dayStart);
    forall it
      ensures it in d <==> it in all && Passes(it, yearFilter, startDate, endDate, yearOf, dayStart)
    {
      if it in all && Passes(it, yearFilter, startDate, endDate, yearOf, dayStart) {
        var i :| 0 <= i < |all| && all[i] == it;
        assert it in y;
        var j :| 0 <= j < |y| && y[j] == it;
        assert it in d;
      }
      if it in d {
        var j :| 0 <= j < |d| && d[j] == it;
        assert it in y;
        var i :| 0 <= i < |y| && y[i] == it;
        assert it in all;
      }
    }
  }

  /** The filtered list keeps the fetched order and holds exactly the fetched
      items that pass the filters that are on. */
  lemma AppliedProperties(fetched: Option<seq<SoldItem>>, yearFilter: string, startDate: string,
                          endDate: string, yearOf: int -> int, dayStart: string -> int)
    ensures IsSubsequence(Applied(fetched, yearFilter, startDate, endDate, yearOf, dayStart), fetched.GetOr([]))
    ensures forall it :: it in Applied(fetched, yearFilter, startDate, endDate, yearOf, dayStart) <==>
      it in fetched.GetOr([]) && Passes(it, yearFilter, startDate, endDate, yearOf, dayStart)
  {
    AppliedSubsequence(fetched, yearFilter, startDate, endDate, yearOf, dayStart);
    AppliedMembership(fetched, yearFilter, startDate, endDate, yearOf, dayStart);
  }

  /** A year typed with a leading zero ("02025") matches no item: years are
      written without one. */
  lemma {:induction false} LeadingZeroYearMatchesNothing(items: seq<SoldItem>, yearFilter: string, yearOf: int -> int)
    requires |yearFilter| > 1 && yearFilter[0] == '0'
    ensures ByYear(items, yearFilter, yearOf) == []
  {
    var r := ByYear(items, yearFilter, yearOf);
    if r != [] {
      var y := yearOf(r[0].createdAt);
      assert false;
    }
  }

  /** The end date as written leaves out the items sold during the end day
      after its first instant: with the same start and end date, an item sold
      one millisecond into that day is dropped. Counting the end day whole
      keeps it. */
  lemma EndDayDroppedAsWritten(it: SoldItem, date: string, dayStart: string -> int)
    requires date != "" && it.createdAt == dayStart(date) + 1
    ensures ByDatesAsWritten([it], date, date, dayStart) == []
    ensures ByDates([it], date, date, dayStart) == [it]
  {
  }

  /** With the end day counted whole, every item sold on any day from the
      start date through the end date is kept. */
  lemma EndDayKept(items: seq<SoldItem>, startDate: string, endDate: string, dayStart: string -> int, i: int)
    requires startDate != "" && endDate != "" && 0 <= i < |items|
    requires dayStart(startDate) <= items[i].createdAt < dayStart(endDate) + DayMs
    ensures items[i] in ByDates(items, startDate, endDate, dayStart)
  {
  }

  /** Counting the end day whole only adds items: the list the dashboard
      shows is the corrected list with some items left out, in the same
      order. */
  lemma CorrectionOnlyAdds(items: seq<SoldItem>, startDate: string, endDate: string, dayStart: string -> int)
    ensures IsSubsequence(ByDatesAsWritten(items, startDate, endDate, dayStart), ByDates(items, startDate, endDate, dayStart))
  {
    if startDate == "" || endDate == "" {
      SubsequenceRefl(items);
    } else {
      var start, end := dayStart(startDate), dayStart(endDate);
      var whole := (it: SoldItem) => Within(it.createdAt, start, end);
      var asWritten := (it: SoldItem) => WithinAsWritten(it.createdAt, start, end);
      FilterTwice(items, whole, asWritten, asWritten);
      FilterIsSubsequence(Filter(items, whole), asWritten);
    }
  }

  function LineRevenue(it: SoldItem): int { it.price * it.quantity }

  /** The sum of price times quantity over the listed items. */
  function Revenue(items: seq<SoldItem>): int {
    Sum(items, LineRevenue)
  }

  predicate IsBook(it: SoldItem) { it.itemType == "book" }

  predicate IsHome(it: SoldItem) { it.itemType == "home" }

  function SoldBooks(items: seq<SoldItem>): seq<SoldItem> { Filter(items, IsBook) }

  function SoldHomeItems(items: seq<SoldItem>): seq<SoldItem> { Filter(items, IsHome) }

  /** The book and home-item groups share no item, and when every item is of
      one of the two types the two revenues add up to the total. */
  lemma {:induction false} RevenueSplits(items: seq<SoldItem>)
    ensures forall i, j :: 0 <= i < |SoldBooks(items)| && 0 <= j < |SoldHomeItems(items)| ==>
      SoldBooks(items)[i] != SoldHomeItems(items)[j]
    ensures (forall i :: 0 <= i < |items| ==> IsBook(items[i]) || IsHome(items[i])) ==>
      Revenue(SoldBooks(items)) + Revenue(SoldHomeItems(items)) == Revenue(items)
  {
    FilterDisjoint(items, IsBook, IsHome);
    if forall i :: 0 <= i < |items| ==> IsBook(items[i]) || IsHome(items[i]) {
      SumPartition(items, LineRevenue, IsBook, IsHome);
    }
  }

  /** Sales of non-negative quantities at non-negative prices give
      non-negative revenue. */
  lemma RevenueNonNegative(items: seq<SoldItem>)
    requires forall i :: 0 <= i < |items| ==> items[i].price >= 0 && items[i].quantity >= 0
    ensures Revenue(items) >= 0
  {
    SumNonNegative(items, LineRevenue);
  }

  /** The state of the dashboard. */
  class Dashboard {
    var fetched: Option<seq<SoldItem>>
    var filteredItems: seq<SoldItem>
    var yearFilter: string
    var startDate: string
    var endDate: string

    constructor ()
      ensures fetched.None? && filteredItems == []
      ensures yearFilter == "" && startDate == "" && endDate == ""
    {
      fetched := None;
      filteredItems := [];
      yearFilter := "";
      startDate := "";
      endDate := "";
    }

    /** A new answer of the sold-items query replaces the list on screen,
        dropping whatever filters were applied to the previous one. */
    method Receive(answer: Option<seq<SoldItem>>)
      modifies this`fetched, this`filteredItems
      ensures fetched == answer
      ensures filteredItems == (if answer.Some? then answer.value else old(filteredItems))
    {
      fetched := answer;
      if answer.Some? {
        filteredItems := answer.value;
      }
    }

    method TypeYear(text: string)
      modifies this`yearFilter
      ensures yearFilter == text
    {
      yearFilter := text;
    }

    method PickStart(date: string)
      modifies this`startDate
      ensures startDate == date
    {
      startDate := date;
    }

    method PickEnd(date: string)
      modifies this`endDate
      ensures endDate == date
    {
      endDate := date;
    }

    /** "Apply Filters": the list becomes the fetched items that pass the
        filters, whatever it held before. */
    method ApplyFilters(yearOf: int -> int, dayStart: string -> int)
      modifies this`filteredItems
      ensures filteredItems == Applied(fetched, yearFilter, startDate, endDate, yearOf, dayStart)
      ensures forall it :: it in filteredItems <==>
        it in fetched.GetOr([]) && Passes(it, yearFilter, startDate, endDate, yearOf, dayStart)
    {
      var items := fetched.GetOr([]);
      if yearFilter != "" {
        var year := yearFilter;
        items := Filter(items, it => InYear(it, year, yearOf));
      }
      if startDate != "" && endDate != "" {
        var start, end := dayStart(startDate), dayStart(endDate);
        items := Filter(items, (it: SoldItem) => WithinAsWritten(it.createdAt, start, end));
      }
      filteredItems := items;
      AppliedProperties(fetched, yearFilter, startDate, endDate, yearOf, dayStart);
    }

    function TotalRevenue(): int
      reads this
    {
      Revenue(filteredItems)
    }

    function BookRevenue(): int
      reads this
    {
      Revenue(SoldBooks(filteredItems))
    }

    function HomeItemRevenue(): int
      reads this
    {
      Revenue(SoldHomeItems(filteredItems))
    }
  }
}
