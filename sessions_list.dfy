/** The sessions list page: filter the fetched sessions by status and search
    text, sort them by a column in either direction, cut out one page, colour
    each status, keep the filters in the URL, and the handlers that change
    the view. */
module SessionsList {
  import opened Common
  import opened Text

  /** A session as the list reads it. `date` is the instant the session's
      date string denotes, in milliseconds. */
  datatype Session = Session(
    id: string,
    title: string,
    description: Option<string>,
    date: int,
    location: string,
    status: string)

  datatype Order = Asc | Desc
  datatype Column = Title | Date | Location | Status

  const AllStatuses := "all"

  // ---------------------------------------------------------------- filter

  /** The lower-cased search text occurs in the title, the location or a
      non-empty description, each lower-cased. */
  predicate MatchesSearch(session: Session, searchLower: string) {
    || Includes(Lower(session.title), searchLower)
    || Includes(Lower(session.location), searchLower)
    || (session.description.Some? && session.description.value != ""
        && Includes(Lower(session.description.value), searchLower))
  }

  /** The filter callback: the status must equal the chosen one unless it is
      'all', and a non-empty search must match. */
  predicate Keep(session: Session, filterStatus: string, search: string) {
    && (filterStatus == AllStatuses || session.status == filterStatus)
    && (search == "" || MatchesSearch(session, Lower(search)))
  }

  /** `xs.filter(keep)`: the elements `keep` accepts. */
  function Where<T>(xs: seq<T>, keep: T -> bool): (r: seq<T>)
    ensures forall i :: 0 <= i < |r| ==> keep(r[i])
    ensures multiset(r) <= multiset(xs)
  {
    if |xs| == 0 then []
    else
      var rest := Where(xs[1..], keep);
      assert xs == [xs[0]] + xs[1..];
      assert multiset(xs) == multiset{xs[0]} + multiset(xs[1..]);
      if keep(xs[0]) then
        assert forall i :: 1 <= i < |rest| + 1 ==> ([xs[0]] + rest)[i] == rest[i - 1];
        [xs[0]] + rest
      else rest
  }

  /** When `keep` accepts every element, nothing is dropped. */
  lemma {:induction false} WhereKeepsAll<T>(xs: seq<T>, keep: T -> bool)
    requires forall i :: 0 <= i < |xs| ==> keep(xs[i])
    ensures Where(xs, keep) == xs
  {
    if |xs| > 0 {
      assert forall i :: 0 <= i < |xs[1..]| ==> xs[1..][i] == xs[i + 1];
      WhereKeepsAll(xs[1..], keep);
      assert xs == [xs[0]] + xs[1..];
    }
  }

  /** Every element `keep` accepts is kept. */
  lemma {:induction false} WhereKeepsMatches<T>(xs: seq<T>, keep: T -> bool)
    ensures forall i :: 0 <= i < |xs| && keep(xs[i]) ==> xs[i] in Where(xs, keep)
  {
    if |xs| > 0 {
      WhereKeepsMatches(xs[1..], keep);
      forall i | 1 <= i < |xs| ensures xs[i] == xs[1..][i - 1] {
      }
    }
  }

  /** The filter step of `filteredSessions`: the sessions that pass the status
      and search test. */
  function FilterSessions(sessions: seq<Session>, filterStatus: string, search: string): (r: seq<Session>)
    ensures forall i :: 0 <= i < |r| ==> Keep(r[i], filterStatus, search)
    ensures multiset(r) <= multiset(sessions)
    ensures filterStatus == AllStatuses && search == "" ==> r == sessions
  {
    var keep := s => Keep(s, filterStatus, search);
    if filterStatus == AllStatuses && search == "" then
      WhereKeepsAll(sessions, keep);
      Where(sessions, keep)
    else
      Where(sessions, keep)
  }

  /** Every session that passes the test is kept. */
  lemma FilterKeepsMatches(sessions: seq<Session>, filterStatus: string, search: string)
    ensures forall i :: 0 <= i < |sessions| && Keep(sessions[i], filterStatus, search) ==>
              sessions[i] in FilterSessions(sessions, filterStatus, search)
  {
    WhereKeepsMatches(sessions, s => Keep(s, filterStatus, search));
  }

  /** With a status other than 'all', every kept session has that status. */
  lemma FilteredHaveStatus(sessions: seq<Session>, filterStatus: string, search: string, x: Session)
    requires filterStatus != AllStatuses && x in FilterSessions(sessions, filterStatus, search)
    ensures x.status == filterStatus
  {
    var r := FilterSessions(sessions, filterStatus, search);
    var i :| 0 <= i < |r| && r[i] == x;
  }

  // ---------------------------------------------------------------- sort

  /** `localeCompare`, taken as comparison by character code, first
      difference wins and a proper prefix comes first. */
  function LexCompare(x: string, y: string): (r: int)
    ensures -1 <= r <= 1
    ensures r == 0 <==> x == y
  {
    if |x| == 0 && |y| == 0 then 0
    else if |x| == 0 then -1
    else if |y| == 0 then 1
    else if x[0] < y[0] then -1
    else if x[0] > y[0] then 1
    else
      var r := LexCompare(x[1..], y[1..]);
      assert r == 0 ==> x == [x[0]] + x[1..] && y == [y[0]] + y[1..];
      r
  }

  lemma {:induction false} LexAntisymmetric(x: string, y: string)
    ensures LexCompare(x, y) == -LexCompare(y, x)
  {
    if |x| > 0 && |y| > 0 && x[0] == y[0] {
      LexAntisymmetric(x[1..], y[1..]);
    }
  }

  lemma {:induction false} LexTransitive(x: string, y: string, z: string)
    requires LexCompare(x, y) <= 0 && LexCompare(y, z) <= 0
    ensures LexCompare(x, z) <= 0
  {
    if |x| > 0 && |y| > 0 && |z| > 0 && x[0] == y[0] && y[0] == z[0] {
      LexTransitive(x[1..], y[1..], z[1..]);
    }
  }

  function TextOf(session: Session, column: Column): string
    requires column != Date
  {
    match column
    case Title => session.title
    case Location => session.location
    case Status => session.status
  }

  /** The sort callback: dates by their instants, the other columns, which
      are all strings, by `localeCompare`; `Desc` swaps the operands. */
  function Compare(a: Session, b: Session, orderBy: Column, order: Order): int {
    if orderBy == Date then
      (if order == Asc then a.date - b.date else b.date - a.date)
    else if order == Asc then LexCompare(TextOf(a, orderBy), TextOf(b, orderBy))
    else LexCompare(TextOf(b, orderBy), TextOf(a, orderBy))
  }

  lemma CompareAntisymmetric(a: Session, b: Session, orderBy: Column, order: Order)
    ensures Compare(a, b, orderBy, order) == -Compare(b, a, orderBy, order)
  {
    if orderBy != Date {
      LexAntisymmetric(TextOf(a, orderBy), TextOf(b, orderBy));
    }
  }

  lemma CompareTransitive(a: Session, b: Session, c: Session, orderBy: Column, order: Order)
    requires Compare(a, b, orderBy, order) <= 0 && Compare(b, c, orderBy, order) <= 0
    ensures Compare(a, c, orderBy, order) <= 0
  {
    if orderBy != Date {
      if order == Asc {
        LexTransitive(TextOf(a, orderBy), TextOf(b, orderBy), TextOf(c, orderBy));
      } else {
        LexTransitive(TextOf(c, orderBy), TextOf(b, orderBy), TextOf(a, orderBy));
      }
    }
  }

  predicate Sorted(xs: seq<Session>, orderBy: Column, order: Order) {
    forall i, j :: 0 <= i < j < |xs| ==> Compare(xs[i], xs[j], orderBy, order) <= 0
  }

  /** Puts `x` in front of the first element it may precede, so that it stays
      ahead of the elements that compare equal to it. */
  function Insert(x: Session, xs: seq<Session>, orderBy: Column, order: Order): (r: seq<Session>)
    ensures multiset(r) == multiset(xs) + multiset{x}
    decreases |xs|
  {
    if |xs| == 0 then [x]
    else if Compare(x, xs[0], orderBy, order) <= 0 then [x] + xs
    else
      assert xs == [xs[0]] + xs[1..];
      [xs[0]] + Insert(x, xs[1..], orderBy, order)
  }

  lemma PrependSorted(y: Session, ys: seq<Session>, orderBy: Column, order: Order)
    requires Sorted(ys, orderBy, order)
    requires forall j :: 0 <= j < |ys| ==> Compare(y, ys[j], orderBy, order) <= 0
    ensures Sorted([y] + ys, orderBy, order)
  {
    var r := [y] + ys;
    forall i, j | 0 <= i < j < |r| ensures Compare(r[i], r[j], orderBy, order) <= 0 {
      if i == 0 {
        assert r[j] == ys[j - 1];
      } else {
        assert r[i] == ys[i - 1] && r[j] == ys[j - 1];
      }
    }
  }

  /** Inserting into a sorted list keeps it sorted. */
  lemma {:induction false} InsertSorted(x: Session, xs: seq<Session>, orderBy: Column, order: Order)
    requires Sorted(xs, orderBy, order)
    ensures Sorted(Insert(x, xs, orderBy, order), orderBy, order)
    decreases |xs|
  {
    if |xs| == 0 {
    } else if Compare(x, xs[0], orderBy, order) <= 0 {
      forall j | 0 <= j < |xs| ensures Compare(x, xs[j], orderBy, order) <= 0 {
        if j > 0 {
          CompareTransitive(x, xs[0], xs[j], orderBy, order);
        }
      }
      PrependSorted(x, xs, orderBy, order);
    } else {
      var tail := xs[1..];
      assert Sorted(tail, orderBy, order) by {
        forall i, j | 0 <= i < j < |tail| ensures Compare(tail[i], tail[j], orderBy, order) <= 0 {
          assert tail[i] == xs[i + 1] && tail[j] == xs[j + 1];
        }
      }
      InsertSorted(x, tail, orderBy, order);
      var rest := Insert(x, tail, orderBy, order);
      CompareAntisymmetric(x, xs[0], orderBy, order);
      forall j | 0 <= j < |rest| ensures Compare(xs[0], rest[j], orderBy, order) <= 0 {
        assert rest[j] in multiset(rest);
        if rest[j] != x {
          assert rest[j] in multiset(tail);
          var k :| 0 <= k < |tail| && tail[k] == rest[j];
          assert tail[k] == xs[k + 1];
        }
      }
      PrependSorted(xs[0], rest, orderBy, order);
    }
  }

  /** The `.sort(...)` step, as a stable insertion sort. */
  function SortSessions(xs: seq<Session>, orderBy: Column, order: Order): (r: seq<Session>)
    ensures multiset(r) == multiset(xs)
    ensures Sorted(r, orderBy, order)
    decreases |xs|
  {
    if |xs| == 0 then []
    else
      assert xs == [xs[0]] + xs[1..];
      var sortedTail := SortSessions(xs[1..], orderBy, order);
      InsertSorted(xs[0], sortedTail, orderBy, order);
      Insert(xs[0], sortedTail, orderBy, order)
  }

  /** `filteredSessions`: nothing while the sessions have not arrived,
      otherwise the kept sessions in order. */
  function FilteredSessions(sessions: Option<seq<Session>>, filterStatus: string, search: string,
                            orderBy: Column, order: Order): (r: seq<Session>)
    ensures sessions.None? ==> r == []
    ensures sessions.Some? ==> multiset(r) == multiset(FilterSessions(sessions.value, filterStatus, search))
    ensures Sorted(r, orderBy, order)
  {
    if sessions.None? then []
    else SortSessions(FilterSessions(sessions.value, filterStatus, search), orderBy, order)
  }

  /** Sorting by date orders the sessions by their instants: earliest first
      for `Asc`, latest first for `Desc`. */
  lemma DateSortOrdersInstants(sessions: Option<seq<Session>>, filterStatus: string, search: string, order: Order)
    ensures var r := FilteredSessions(sessions, filterStatus, search, Date, order);
            forall i, j :: 0 <= i < j < |r| ==>
              if order == Asc then r[i].date <= r[j].date else r[i].date >= r[j].date
  {
    var r := FilteredSessions(sessions, filterStatus, search, Date, order);
    forall i, j | 0 <= i < j < |r|
      ensures if order == Asc then r[i].date <= r[j].date else r[i].date >= r[j].date
    {
      assert Compare(r[i], r[j], Date, order) <= 0;
    }
  }

  /** With status 'all' and no search text, the list holds exactly the fetched
      sessions, each as often as it was fetched. */
  lemma NoFilterIsPermutation(sessions: seq<Session>, orderBy: Column, order: Order)
    ensures multiset(FilteredSessions(Some(sessions), AllStatuses, "", orderBy, order)) == multiset(sessions)
  {
  }

  // ---------------------------------------------------------------- pages

  /** How `Array.prototype.slice` reads an index: negative counts from the
      end, and the result is clamped to the length. */
  function SliceIndex(i: int, length: nat): (r: nat)
    ensures r <= length
    ensures 0 <= i <= length ==> r == i
    ensures i > length ==> r == length
  {
    if i < 0 then (if length + i < 0 then 0 else length + i)
    else if i > length then length
    else i
  }

  function Slice<T>(xs: seq<T>, start: int, end: int): seq<T> {
    var s := SliceIndex(start, |xs|);
    var e := SliceIndex(end, |xs|);
    if s < e then xs[s..e] else []
  }

  /** `paginatedSessions`: the block starting at `page * rowsPerPage`. */
  function Paginate<T>(xs: seq<T>, page: int, rowsPerPage: int): (r: seq<T>)
    ensures page >= 0 && rowsPerPage >= 0 ==> |r| <= rowsPerPage
    ensures page >= 0 && rowsPerPage >= 0 ==>
              forall i :: 0 <= i < |r| ==> page * rowsPerPage + i < |xs| && r[i] == xs[page * rowsPerPage + i]
    ensures page >= 0 && rowsPerPage >= 0 && page * rowsPerPage >= |xs| ==> r == []
    ensures page >= 0 && rowsPerPage >= 0 && page * rowsPerPage + rowsPerPage <= |xs| ==> |r| == rowsPerPage
  {
    assert page >= 0 && rowsPerPage >= 0 ==> page * rowsPerPage >= 0;
    Slice(xs, page * rowsPerPage, page * rowsPerPage + rowsPerPage)
  }

  /** Every row of the list is shown on exactly one page: row `i` is entry
      `i % n` of page `i / n`. */
  lemma RowOnItsPage<T>(xs: seq<T>, rowsPerPage: int, i: int)
    requires rowsPerPage > 0 && 0 <= i < |xs|
    ensures var page := Paginate(xs, i / rowsPerPage, rowsPerPage);
            i % rowsPerPage < |page| && page[i % rowsPerPage] == xs[i]
  {
    var p := i / rowsPerPage;
    assert p * rowsPerPage + i % rowsPerPage == i;
    assert p >= 0;
    var start := p * rowsPerPage;
    assert start <= i < start + rowsPerPage;
  }

  // ---------------------------------------------------------------- status chip

  /** `getStatusColor`: one colour per known status, 'default' for the rest. */
  function StatusColor(status: string): (r: string)
    ensures r == "default" <==> status !in {"confirmed", "pending", "cancelled", "completed"}
  {
    match status
    case "confirmed" => "success"
    case "pending" => "warning"
    case "cancelled" => "error"
    case "completed" => "info"
    case _ => "default"
  }

  /** Distinct known statuses get distinct colours. */
  lemma StatusColorsDistinct(a: string, b: string)
    requires StatusColor(a) != "default" && a != b
    ensures StatusColor(a) != StatusColor(b)
  {
  }

  // ---------------------------------------------------------------- URL

  /** The first value stored under `key`, as `URLSearchParams.get` returns it. */
  function GetParam(params: seq<(string, string)>, key: string): (r: Option<string>)
    ensures r.Some? ==> exists i :: 0 <= i < |params| && params[i] == (key, r.value) &&
                                    forall j :: 0 <= j < i ==> params[j].0 != key
    ensures r.None? ==> forall i :: 0 <= i < |params| ==> params[i].0 != key
  {
    if |params| == 0 then None
    else if params[0].0 == key then Some(params[0].1)
    else
      var r := GetParam(params[1..], key);
      if r.Some? then
        var i :| 0 <= i < |params[1..]| && params[1..][i] == (key, r.value) &&
                 forall j :: 0 <= j < i ==> params[1..][j].0 != key;
        assert params[i + 1] == (key, r.value);
        assert forall j :: 0 <= j < i + 1 ==> params[j].0 != key by {
          forall j | 0 <= j < i + 1 ensures params[j].0 != key {
            if j > 0 {
              assert params[j] == params[1..][j - 1];
            }
          }
        }
        r
      else
        r
  }

  /** The `rowsPerPageOptions` of the table footer. */
  const RowsPerPageOptions: seq<int> := [5, 10, 25]

  /** The page's view state. */
  class SessionsListPage {
    var filterStatus: string
    var search: string
    var order: Order
    var orderBy: Column
    var page: int
    var rowsPerPage: int

    /** The filters start from the URL's `status` (default 'all') and `search`
        (default empty); the list starts newest first on page 0 with 10 rows. */
    constructor (params: seq<(string, string)>)
      ensures filterStatus == OrString(GetParam(params, "status"), AllStatuses)
      ensures search == OrString(GetParam(params, "search"), "")
      ensures order == Desc && orderBy == Date && page == 0 && rowsPerPage == 10
    {
      filterStatus := OrString(GetParam(params, "status"), AllStatuses);
      search := OrString(GetParam(params, "search"), "");
      order := Desc;
      orderBy := Date;
      page := 0;
      rowsPerPage := 10;
    }

    /** The rows on screen for the fetched sessions. */
    function Visible(sessions: Option<seq<Session>>): seq<Session>
      reads this
    {
      Paginate(FilteredSessions(sessions, filterStatus, search, orderBy, order), page, rowsPerPage)
    }

    method HandleStatusFilterChange(value: string)
      modifies this
      ensures filterStatus == value && page == 0
      ensures search == old(search) && order == old(order) && orderBy == old(orderBy)
      ensures rowsPerPage == old(rowsPerPage)
    {
      filterStatus := value;
      page := 0;
    }

    method HandleSearchChange(value: string)
      modifies this
      ensures search == value && page == 0
      ensures filterStatus == old(filterStatus) && order == old(order) && orderBy == old(orderBy)
      ensures rowsPerPage == old(rowsPerPage)
    {
      search := value;
      page := 0;
    }

    /** A click on a column header: the current column while ascending turns
        to descending, every other click sorts ascending by the clicked column. */
    method HandleRequestSort(property: Column)
      modifies this
      ensures orderBy == property
      ensures order == Desc <==> old(orderBy) == property && old(order) == Asc
      ensures filterStatus == old(filterStatus) && search == old(search)
      ensures page == old(page) && rowsPerPage == old(rowsPerPage)
    {
      var isAsc := orderBy == property && order == Asc;
      order := if isAsc then Desc else Asc;
      orderBy := property;
    }

    method HandleChangePage(newPage: int)
      modifies this`page
      ensures page == newPage
    {
      page := newPage;
    }

    /** The rows-per-page menu hands over the number of the chosen option. */
    method HandleChangeRowsPerPage(rows: int)
      modifies this`rowsPerPage, this`page
      ensures rowsPerPage == rows && page == 0
    {
      rowsPerPage := rows;
      page := 0;
    }

    /** The effect that writes the filters back into the URL: `status` only
        when it is not 'all', `search` only when it is not empty. Reading the
        URL back, as the constructor does, gives the same filters. */
    method SearchParams() returns (params: seq<(string, string)>)
      ensures GetParam(params, "status").Some? <==> filterStatus != AllStatuses
      ensures GetParam(params, "search").Some? <==> search != ""
      ensures filterStatus != AllStatuses ==> GetParam(params, "status") == Some(filterStatus)
      ensures search != "" ==> GetParam(params, "search") == Some(search)
      ensures filterStatus != "" ==> OrString(GetParam(params, "status"), AllStatuses) == filterStatus
      ensures OrString(GetParam(params, "search"), "") == search
    {
      params := [];
      if filterStatus != AllStatuses {
        params := params + [("status", filterStatus)];
      }
      if search != "" {
        params := params + [("search", search)];
      }
    }
  }
}
