/** The dashboard: the month grid of its calendar card, the highlighted
    current day, the fallback to sample data while the queries are empty, and
    the number of pending invitations listed. */
module Dashboard {
  import opened Common

  // ---------------------------------------------------------------- calendar

  /** A grid for a month whose first day falls on weekday `first` (0 is
      Sunday) and which has `daysInMonth` days: `first` blank cells, then the
      days 1, 2, … in order. */
  ghost predicate IsDayGrid(days: seq<Option<int>>, first: nat, daysInMonth: nat) {
    && |days| == first + daysInMonth
    && (forall i :: 0 <= i < first ==> days[i].None?)
    && (forall i :: first <= i < |days| ==> days[i] == Some(i - first + 1))
  }

  /** `CalendarView`'s two loops: push a blank for each weekday before the
      first, then each day of the month. */
  method CalendarDays(first: nat, daysInMonth: nat) returns (days: seq<Option<int>>)
    ensures IsDayGrid(days, first, daysInMonth)
  {
    days := [];
    var i := 0;
    while i < first
      invariant 0 <= i <= first
      invariant days == seq(i, _ => None)
    {
      days := days + [None];
      i := i + 1;
    }
    i := 1;
    while i <= daysInMonth
      invariant 1 <= i <= daysInMonth + 1
      invariant |days| == first + i - 1
      invariant forall j :: 0 <= j < first ==> days[j].None?
      invariant forall j :: first <= j < |days| ==> days[j] == Some(j - first + 1)
    {
      days := days + [Some(i)];
      i := i + 1;
    }
  }

  /** Day `d` of the month sits in cell `first + d - 1`, so the days appear
      in increasing order and each exactly once. */
  lemma DaysInOrder(days: seq<Option<int>>, first: nat, daysInMonth: nat)
    requires IsDayGrid(days, first, daysInMonth)
    ensures forall d :: 1 <= d <= daysInMonth ==> days[first + d - 1] == Some(d)
    ensures forall i, j :: 0 <= i < j < |days| && days[i].Some? && days[j].Some? ==> days[i].value < days[j].value
    ensures forall i :: 0 <= i < |days| && days[i].Some? ==> 1 <= days[i].value <= daysInMonth
  {
    forall d | 1 <= d <= daysInMonth ensures days[first + d - 1] == Some(d) {
      assert first <= first + d - 1 < |days|;
    }
  }

  /** A cell is drawn as the highlighted button when it holds a day (a blank
      is falsy) equal to today's. */
  predicate Highlighted(cell: Option<int>, currentDay: int) {
    cell.Some? && cell.value != 0 && cell.value == currentDay
  }

  /** When today is a day of the shown month, exactly one cell is highlighted:
      the one holding today. */
  lemma {:induction false} ExactlyOneHighlight(days: seq<Option<int>>, first: nat, daysInMonth: nat, currentDay: int)
    requires IsDayGrid(days, first, daysInMonth) && 1 <= currentDay <= daysInMonth
    ensures (set i | 0 <= i < |days| && Highlighted(days[i], currentDay)) == {first + currentDay - 1}
    ensures |set i | 0 <= i < |days| && Highlighted(days[i], currentDay)| == 1
  {
    var cells := set i | 0 <= i < |days| && Highlighted(days[i], currentDay);
    var today := first + currentDay - 1;
    assert days[today] == Some(currentDay);
    forall i | i in cells ensures i == today {
      assert i >= first;
    }
    assert cells == {today};
  }

  /** A day outside the shown month highlights nothing. */
  lemma NoHighlightOutsideMonth(days: seq<Option<int>>, first: nat, daysInMonth: nat, currentDay: int)
    requires IsDayGrid(days, first, daysInMonth) && (currentDay < 1 || currentDay > daysInMonth)
    ensures forall i :: 0 <= i < |days| ==> !Highlighted(days[i], currentDay)
  {
    forall i | 0 <= i < |days| ensures !Highlighted(days[i], currentDay) {
      if i >= first {
        assert days[i] == Some(i - first + 1);
      }
    }
  }

  // ---------------------------------------------------------------- stats

  datatype Stats = Stats(
    totalSessions: int,
    pendingInvitations: int,
    upcomingSessions: int,
    pendingPayments: int,
    totalEarnings: int,
    completedSessions: int)

  /** The sample numbers shown while no statistics have arrived. */
  const MockStats := Stats(12, 3, 5, 2, 1250, 8)

  /** The JavaScript value of a query's `data`: `undefined` until the result
      arrives, then an object or an array (which reference does not matter
      here), whatever its contents. */
  function QueryValue<T>(data: Option<T>): JsValue {
    if data.Some? then Obj(0) else Undefined
  }

  /** `data || mock` for a query result: the arrived result when `data` is
      truthy, the sample value otherwise. */
  function OrMock<T>(data: Option<T>, mock: T): (r: T)
    ensures Truthy(QueryValue(data)) ==> data.Some? && r == data.value
    ensures !Truthy(QueryValue(data)) ==> r == mock
  {
    if data.Some? then data.value else mock
  }

  /** `||` picks the query's own value exactly when the result has arrived. */
  lemma OrPicksArrivedResult<T>(data: Option<T>, mockRef: nat)
    ensures Or(QueryValue(data), Obj(mockRef)) == QueryValue(data) <==> data.Some?
  {
  }

  /** An arrived empty list is truthy, so it is shown as empty and not
      replaced by the samples. */
  lemma ArrivedEmptyListShown<T>(mock: seq<T>)
    ensures OrMock(Some([]), mock) == []
  {
  }

  /** How many invitation rows the card lists: none unless the count is
      positive, and never more than three. */
  function InvitationRows(pendingInvitations: int): (r: nat)
    ensures r <= 3
    ensures r == 0 <==> pendingInvitations <= 0
    ensures 0 < pendingInvitations <= 3 ==> r == pendingInvitations
    ensures pendingInvitations >= 3 ==> r == 3
  {
    if pendingInvitations > 0 then (if pendingInvitations < 3 then pendingInvitations else 3) else 0
  }

  /** Without statistics, the card lists the three sample invitations. */
  lemma SampleInvitations(stats: Option<Stats>)
    requires stats.None?
    ensures InvitationRows(OrMock(stats, MockStats).pendingInvitations) == 3
  {
  }
}
