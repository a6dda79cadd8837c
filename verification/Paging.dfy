/**
  Offset pagination, MockDashboardState._page_rows of
  scripts/mock_dashboard_server.py, and the client loop that follows its cursors.
 */
module Paging {
  import opened Options
  import opened Decimals

  datatype Page<T> = Page(items: seq<T>, next: Option<string>)

  datatype Reply<T> = Served(page: Page<T>) | InvalidCursor

  /** int() of a cursor: digits, with at most one sign in front. */
  function ParseInt(s: string): Option<int> {
    if s != "" && AllDigits(s) then Some(Value(s))
    else if |s| > 1 && s[0] == '-' && AllDigits(s[1..]) then var v: int := Value(s[1..]); Some(-v)
    else if |s| > 1 && s[0] == '+' && AllDigits(s[1..]) then Some(Value(s[1..]))
    else None
  }

  /** One bound of a Python slice: negative counts from the end, and all is clipped. */
  function Clip(i: int, n: nat): nat {
    if i < 0 then (if i + n < 0 then 0 else i + n) else if i > n then n else i
  }

  function Slice<T>(rows: seq<T>, lo: int, hi: int): seq<T> {
    var a, b := Clip(lo, |rows|), Clip(hi, |rows|);
    if a <= b then rows[a..b] else []
  }

  /** str() of an offset. */
  function Print(i: int): string {
    if i < 0 then "-" + Numeral(-i) else Numeral(i)
  }

  function PageAt<T>(rows: seq<T>, limit: nat, offset: int): Page<T> {
    var items := Slice(rows, offset, offset + limit);
    var next := offset + |items|;
    Page(items, if next < |rows| then Some(Print(next)) else None)
  }

  /** _page_rows; an absent or empty cursor means the first page. */
  function PageRows<T>(rows: seq<T>, limit: nat, cursor: Option<string>): Reply<T> {
    if cursor.None? || cursor.value == "" then Served(PageAt(rows, limit, 0))
    else match ParseInt(cursor.value)
      case None => InvalidCursor
      case Some(offset) => Served(PageAt(rows, limit, offset))
  }

  lemma PrintParses(n: nat)
    ensures Print(n) != "" && AllDigits(Print(n)) && ParseInt(Print(n)) == Some(n)
  {
    RoundTrip(n);
  }

  /** The pages of n rows, at least one. */
  function PageCount(n: nat, limit: nat): nat
    requires limit > 0
  {
    if n <= limit then 1 else 1 + PageCount(n - limit, limit)
  }

  /** The recursive count is the ceiling, or one for no rows. */
  lemma {:induction false} PageCountIsCeiling(n: nat, limit: nat)
    requires limit > 0
    ensures PageCount(n, limit) == if n == 0 then 1 else (n + limit - 1) / limit
  {
    if n <= limit {
      if n > 0 {
        Divide(n + limit - 1, 1, n - 1, limit);
      }
    } else {
      PageCountIsCeiling(n - limit, limit);
      var q := (n - 1) / limit;
      assert (n - limit + limit - 1) / limit == q;
      Divide(n + limit - 1, q + 1, (n - 1) % limit, limit);
    }
  }

  lemma Divide(x: int, q: int, r: int, d: int)
    requires 0 <= r < d && x == q * d + r
    ensures x / d == q
  {
    assert (q - x / d) * d == x % d - r;
    Multiple(q - x / d, d);
  }

  lemma Multiple(k: int, d: int)
    requires d > 0
    ensures k >= 1 ==> k * d >= d
    ensures k <= -1 ==> k * d <= -d
  {
  }

  lemma PageIs<T>(rows: seq<T>, limit: nat, offset: nat)
    requires limit >= 1 && offset <= |rows|
    ensures
      var to := if offset + limit < |rows| then offset + limit else |rows|;
      PageAt(rows, limit, offset) == Page(rows[offset..to], if to < |rows| then Some(Print(to)) else None)
  {
  }

  /**
    Following the server's cursors from the first page: every row comes once,
    in order, in as many pages as rows need, and every cursor is understood.
   */
  method FollowCursors<T>(rows: seq<T>, limit: nat) returns (all: seq<T>, pages: nat)
    requires limit >= 1
    ensures all == rows
    ensures pages == PageCount(|rows|, limit)
  {
    var cursor: Option<string> := None;
    all, pages := [], 0;
    ghost var offset := 0;
    FirstPage(rows, limit);
    hide PageAt, PageRows, PageCount;
    while true
      invariant 0 <= offset <= |rows| && all == rows[..offset]
      invariant PageRows(rows, limit, cursor) == Served(PageAt(rows, limit, offset))
      invariant pages + PageCount(|rows| - offset, limit) == PageCount(|rows|, limit)
      decreases |rows| - offset
    {
      ghost var to := OnePage(rows, limit, offset);
      var page := PageRows(rows, limit, cursor).page;
      all, pages := all + page.items, pages + 1;
      if page.next.None? {
        return;
      }
      cursor := page.next;
      offset := to;
    }
  }

  /** One page: the rows up to `to`, and a cursor that leads there unless it is the end. */
  lemma OnePage<T>(rows: seq<T>, limit: nat, offset: nat) returns (to: nat)
    requires limit >= 1 && offset <= |rows|
    ensures offset <= to <= |rows| && rows[..offset] + PageAt(rows, limit, offset).items == rows[..to]
    ensures
      var next := PageAt(rows, limit, offset).next;
      if next.None? then to == |rows| && PageCount(|rows| - offset, limit) == 1
      else offset < to && PageCount(|rows| - offset, limit) == 1 + PageCount(|rows| - to, limit)
           && PageRows(rows, limit, next) == Served(PageAt(rows, limit, to))
  {
    hide PageAt, PageRows, PageCount, Print;
    PageIs(rows, limit, offset);
    PageCountStep(|rows| - offset, limit);
    to := if offset + limit < |rows| then offset + limit else |rows|;
    PrintedCursor(rows, limit, to);
    assert rows[..offset] + rows[offset..to] == rows[..to];
  }

  lemma PageCountStep(n: nat, limit: nat)
    requires limit > 0
    ensures PageCount(n, limit) == if n <= limit then 1 else 1 + PageCount(n - limit, limit)
  {
  }

  lemma FirstPage<T>(rows: seq<T>, limit: nat)
    ensures PageRows(rows, limit, None) == Served(PageAt(rows, limit, 0))
  {
  }

  /** A printed offset is read back as itself. */
  lemma PrintedCursor<T>(rows: seq<T>, limit: nat, n: nat)
    ensures PageRows(rows, limit, Some(Print(n))) == Served(PageAt(rows, limit, n))
  {
    hide PageAt;
    PrintParses(n);
    hide Print, ParseInt;
  }

  /** The page before which a client would ask for the same page again: no rows, and a cursor to come. */
  predicate Stalls<T>(rows: seq<T>, limit: nat, offset: int) {
    PageAt(rows, limit, offset).items == [] && PageAt(rows, limit, offset).next.Some?
  }

  /** A page stalls exactly for the negative offsets whose slice is empty; no page ever issues one. */
  lemma StallsExactly<T>(rows: seq<T>, limit: nat, offset: int)
    requires limit >= 1
    ensures
      var n := |rows|;
      Stalls(rows, limit, offset) <==>
        && offset < 0
        && (n == 0 || if offset + limit < 0 then offset + limit + n <= 0
                      else offset + limit <= if offset + n < 0 then 0 else offset + n)
    ensures Stalls(rows, limit, offset) ==> PageAt(rows, limit, offset).next == Some(Print(offset))
  {
  }

  lemma NegativeParses(m: int)
    requires m > 0
    ensures Print(-m) != "" && ParseInt(Print(-m)) == Some(-m)
  {
    RoundTrip(m);
    hide Numeral;
    var s := Print(-m);
    assert s[0] == '-' && s[1..] == Numeral(m);
    assert !IsDigit(s[0]);
    hide Value;
  }

  /** Following a cursor that stalls is following it for ever: the same page answers it. */
  lemma StalledCursorNeverAdvances<T>(rows: seq<T>, limit: nat, offset: int)
    requires limit >= 1 && Stalls(rows, limit, offset)
    ensures PageRows(rows, limit, Some(Print(offset))) == Served(Page([], Some(Print(offset))))
  {
    StallsExactly(rows, limit, offset);
    NegativeParses(-offset);
    hide Print, ParseInt;
  }

  /** For instance any small negative cursor on a list longer than a page. */
  lemma ForgedCursorNeverAdvances<T>(rows: seq<T>, limit: nat, back: int)
    requires 1 <= back <= limit <= |rows|
    ensures PageRows(rows, limit, Some(Print(-back))) == Served(Page([], Some(Print(-back))))
  {
    StallsExactly(rows, limit, -back);
    StalledCursorNeverAdvances(rows, limit, -back);
  }

  // --- cursors nobody printed -----------------------------------------------------------

  /** One sign at most, and then digits, at least one. */
  predicate IsInteger(s: string) {
    exists k :: 0 <= k <= 1 && k < |s| && AllDigits(s[k..]) && (k == 1 ==> s[0] == '-' || s[0] == '+')
  }

  /** A cursor is refused exactly if it is given and no integer, whatever the rows are. */
  lemma InvalidExactly<T>(rows: seq<T>, limit: nat, cursor: Option<string>)
    ensures PageRows(rows, limit, cursor).InvalidCursor? <==> cursor.Some? && cursor.value != "" && !IsInteger(cursor.value)
  {
    hide PageAt, Value;
    if cursor.Some? && cursor.value != "" {
      var s := cursor.value;
      assert s[0..] == s;
    }
  }

  /** A sign does what signs do. */
  lemma SignsAreRead(s: string)
    requires s != "" && AllDigits(s)
    ensures ParseInt(s) == Some(Value(s)) && ParseInt("+" + s) == Some(Value(s))
    ensures ParseInt("-" + s).Some? && ParseInt("-" + s).value + Value(s) == 0
  {
    assert ("+" + s)[1..] == s && ("-" + s)[1..] == s;
    assert !IsDigit(("+" + s)[0]) && !IsDigit(("-" + s)[0]);
    hide Value;
  }

  /** An offset at the end or past it gives no rows and no further page. */
  lemma PastTheEnd<T>(rows: seq<T>, limit: nat, offset: int)
    requires offset >= |rows|
    ensures PageAt(rows, limit, offset) == Page([], None)
  {
  }
}
