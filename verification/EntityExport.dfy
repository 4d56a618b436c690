/** The paged export of knowledge entities: an exclusive id cursor over an id-ordered table. */
module EntityExport {
  import opened Options

  const MAX_LIMIT: nat := 5000

  datatype EntityRow = EntityRow(id: int, userId: int, name: string)

  /** The table in primary-key order; ids are positive and unique. */
  predicate IsTable(table: seq<EntityRow>) {
    && (forall i | 0 <= i < |table| :: table[i].id > 0)
    && Increasing(table)
  }

  predicate Increasing(rows: seq<EntityRow>) {
    forall i, j | 0 <= i < j < |rows| :: rows[i].id < rows[j].id
  }

  /** `None` exports every user. */
  predicate Matches(row: EntityRow, user: Option<int>, after: int) {
    row.id > after && (user.None? || user.value == row.userId)
  }

  /** The simple listing: every matching row with a greater id, ascending. */
  function Listing(table: seq<EntityRow>, user: Option<int>, after: int): seq<EntityRow> {
    if table == [] then []
    else
      var last := |table| - 1;
      Listing(table[..last], user, after) + if Matches(table[last], user, after) then [table[last]] else []
  }

  datatype Page = Page(rows: seq<EntityRow>, next: Option<int>) | BadLimit

  /** `export_entities` for an admin: one page and the cursor of the next, none when exhausted. */
  function ExportPage(table: seq<EntityRow>, user: Option<int>, after: int, limit: nat): Page {
    if limit == 0 || limit > MAX_LIMIT then BadLimit
    else Cut(Listing(table, user, after), limit)
  }

  /** At most `limit` rows, and a cursor exactly when the page is full. */
  function Cut(all: seq<EntityRow>, limit: nat): Page
    requires limit > 0
  {
    var rows := if |all| <= limit then all else all[..limit];
    Page(rows, if |rows| == limit then Some(rows[limit - 1].id) else None)
  }

  /** A page is refused exactly for a limit that is zero or above five thousand. */
  lemma RefusedIffBadLimit(table: seq<EntityRow>, user: Option<int>, after: int, limit: nat)
    ensures ExportPage(table, user, after, limit) == BadLimit <==> limit < 1 || limit > 5000
  {
  }

  // ---- The listing ----------------------------------------------------------------------------

  /** The listing holds exactly the matching rows of the table. */
  lemma {:induction false} ListedFrom(table: seq<EntityRow>, user: Option<int>, after: int, i: nat) returns (k: nat)
    requires i < |Listing(table, user, after)|
    ensures k < |table| && table[k] == Listing(table, user, after)[i]
    ensures table[k].id > after && (user == None || user == Some(table[k].userId))
  {
    var last := |table| - 1;
    if i < |Listing(table[..last], user, after)| {
      k := ListedFrom(table[..last], user, after, i);
    } else {
      k := last;
    }
  }

  lemma {:induction false} MatchIsListed(table: seq<EntityRow>, user: Option<int>, after: int, k: nat)
    requires k < |table| && table[k].id > after && (user == None || user == Some(table[k].userId))
    ensures table[k] in Listing(table, user, after)
  {
    var last := |table| - 1;
    if k < last {
      MatchIsListed(table[..last], user, after, k);
    }
  }

  lemma ListedMatches(table: seq<EntityRow>, user: Option<int>, after: int)
    ensures forall i | 0 <= i < |Listing(table, user, after)| :: Matches(Listing(table, user, after)[i], user, after)
  {
    forall i | 0 <= i < |Listing(table, user, after)| ensures Matches(Listing(table, user, after)[i], user, after) {
      var k := ListedFrom(table, user, after, i);
    }
  }

  lemma {:induction false} ListingIncreasing(table: seq<EntityRow>, user: Option<int>, after: int)
    requires Increasing(table)
    ensures Increasing(Listing(table, user, after))
  {
    if table != [] {
      var last := |table| - 1;
      var init := Listing(table[..last], user, after);
      ListingIncreasing(table[..last], user, after);
      forall i | 0 <= i < |init| ensures init[i].id < table[last].id {
        var k := ListedFrom(table[..last], user, after, i);
      }
    }
  }

  lemma ListingSnoc(table: seq<EntityRow>, row: EntityRow, user: Option<int>, after: int)
    ensures Listing(table + [row], user, after)
      == Listing(table, user, after) + if Matches(row, user, after) then [row] else []
  {
    assert (table + [row])[..|table|] == table;
  }

  lemma {:induction false} ListingAppend(table: seq<EntityRow>, more: seq<EntityRow>, user: Option<int>, after: int)
    ensures Listing(table + more, user, after) == Listing(table, user, after) + Listing(more, user, after)
  {
    if more == [] {
      assert table + more == table;
    } else {
      var last := |more| - 1;
      ListingAppend(table, more[..last], user, after);
      assert table + more == (table + more[..last]) + [more[last]];
      ListingSnoc(table + more[..last], more[last], user, after);
    }
  }

  /** Raising the cursor filters the listing. */
  lemma {:induction false} ListingNarrows(table: seq<EntityRow>, user: Option<int>, after: int, later: int)
    requires after <= later
    ensures Listing(Listing(table, user, after), user, later) == Listing(table, user, later)
  {
    if table != [] {
      var last := |table| - 1;
      ListingNarrows(table[..last], user, after, later);
      if Matches(table[last], user, after) {
        ListingSnoc(Listing(table[..last], user, after), table[last], user, later);
      } else {
        assert Listing(table, user, after) == Listing(table[..last], user, after);
      }
    }
  }

  lemma {:induction false} NothingLow(rows: seq<EntityRow>, user: Option<int>, after: int)
    requires forall i | 0 <= i < |rows| :: rows[i].id <= after
    ensures Listing(rows, user, after) == []
  {
    if rows != [] {
      NothingLow(rows[..|rows| - 1], user, after);
    }
  }

  lemma {:induction false} EverythingHigh(rows: seq<EntityRow>, user: Option<int>, after: int)
    requires forall i | 0 <= i < |rows| :: Matches(rows[i], user, after)
    ensures Listing(rows, user, after) == rows
  {
    if rows != [] {
      EverythingHigh(rows[..|rows| - 1], user, after);
      assert rows == rows[..|rows| - 1] + [rows[|rows| - 1]];
    }
  }

  lemma LowHalf(all: seq<EntityRow>, user: Option<int>, k: nat)
    requires Increasing(all) && 0 < k <= |all|
    ensures Listing(all[..k], user, all[k - 1].id) == []
  {
    forall i | 0 <= i < k ensures all[..k][i].id <= all[k - 1].id {
      assert i < k - 1 ==> all[i].id < all[k - 1].id;
    }
    NothingLow(all[..k], user, all[k - 1].id);
  }

  lemma HighHalf(all: seq<EntityRow>, user: Option<int>, after: int, k: nat)
    requires Increasing(all) && 0 < k <= |all| && forall i | 0 <= i < |all| :: Matches(all[i], user, after)
    ensures Listing(all[k..], user, all[k - 1].id) == all[k..]
  {
    forall i | 0 <= i < |all| - k ensures Matches(all[k..][i], user, all[k - 1].id) {
      assert all[k..][i] == all[k + i] && Matches(all[k + i], user, after);
      assert all[k - 1].id < all[k + i].id;
    }
    EverythingHigh(all[k..], user, all[k - 1].id);
  }

  /** Splitting an increasing list at its k-th id. */
  lemma SplitAtCursor(all: seq<EntityRow>, user: Option<int>, after: int, k: nat)
    requires Increasing(all) && 0 < k <= |all| && forall i | 0 <= i < |all| :: Matches(all[i], user, after)
    ensures Listing(all, user, all[k - 1].id) == all[k..]
  {
    LowHalf(all, user, k);
    HighHalf(all, user, after, k);
    ListingAppend(all[..k], all[k..], user, all[k - 1].id);
    assert all == all[..k] + all[k..];
  }

  /** What follows the k-th listed row is exactly what its id as cursor selects. */
  lemma CursorSplitsListing(table: seq<EntityRow>, user: Option<int>, after: int, k: nat)
    requires Increasing(table) && 0 < k <= |Listing(table, user, after)|
    ensures Listing(table, user, Listing(table, user, after)[k - 1].id) == Listing(table, user, after)[k..]
  {
    var all := Listing(table, user, after);
    ListingIncreasing(table, user, after);
    ListedMatches(table, user, after);
    ListingNarrows(table, user, after, all[k - 1].id);
    SplitAtCursor(all, user, after, k);
  }

  // ---- Following the cursor -------------------------------------------------------------------

  function Concat(pages: seq<seq<EntityRow>>): seq<EntityRow> {
    if pages == [] then [] else Concat(pages[..|pages| - 1]) + pages[|pages| - 1]
  }

  lemma ConcatSnoc(pages: seq<seq<EntityRow>>, page: seq<EntityRow>)
    ensures Concat(pages + [page]) == Concat(pages) + page
  {
    assert (pages + [page])[..|pages|] == pages;
  }

  /** The page that continues a listing of which `k` rows are known. */
  function PageFrom(all: seq<EntityRow>, k: nat, limit: nat): Page
    requires k <= |all| && limit > 0
  {
    if k + limit <= |all| then Page(all[k..k + limit], Some(all[k + limit - 1].id)) else Page(all[k..], None)
  }

  /** One more page of an export whose first `k` rows are known. */
  lemma PageExtends(table: seq<EntityRow>, user: Option<int>, limit: nat, cursor: int, k: nat)
    requires IsTable(table) && 1 <= limit <= MAX_LIMIT && k <= |Listing(table, user, 0)|
    requires cursor == if k == 0 then 0 else Listing(table, user, 0)[k - 1].id
    ensures ExportPage(table, user, cursor, limit) == PageFrom(Listing(table, user, 0), k, limit)
  {
    var all := Listing(table, user, 0);
    if k > 0 {
      CursorSplitsListing(table, user, 0, k);
    } else {
      assert all[0..] == all;
    }
    CutOfRest(all, k, limit);
  }

  lemma CutOfRest(all: seq<EntityRow>, k: nat, limit: nat)
    requires k <= |all| && limit > 0
    ensures Cut(all[k..], limit) == PageFrom(all, k, limit)
  {
    if k + limit <= |all| {
      assert all[k..][..limit] == all[k..k + limit];
      assert |all[k..]| == limit ==> all[k..] == all[k..k + limit];
    }
  }

  /** The client holds the first `k` rows of the listing in full pages and the cursor after them. */
  ghost predicate MidExport(all: seq<EntityRow>, pages: seq<seq<EntityRow>>, limit: nat, k: nat, cursor: int) {
    && k <= |all| && k == |pages| * limit && Concat(pages) == all[..k]
    && cursor == if k == 0 then 0 else all[k - 1].id
  }

  ghost predicate Exported(all: seq<EntityRow>, pages: seq<seq<EntityRow>>, limit: nat) {
    Concat(pages) == all && (|pages| - 1) * limit <= |all| < |pages| * limit
  }

  lemma FullPage(all: seq<EntityRow>, pages: seq<seq<EntityRow>>, limit: nat, k: nat, cursor: int)
    requires MidExport(all, pages, limit, k, cursor) && limit > 0 && k + limit <= |all|
    ensures MidExport(all, pages + [all[k..k + limit]], limit, k + limit, all[k + limit - 1].id)
  {
    ConcatSnoc(pages, all[k..k + limit]);
    assert all[..k] + all[k..k + limit] == all[..k + limit];
    assert (|pages| + 1) * limit == k + limit;
  }

  lemma LastPage(all: seq<EntityRow>, pages: seq<seq<EntityRow>>, limit: nat, k: nat, cursor: int)
    requires MidExport(all, pages, limit, k, cursor) && k + limit > |all|
    ensures Exported(all, pages + [all[k..]], limit)
  {
    ConcatSnoc(pages, all[k..]);
    assert all[..k] + all[k..] == all;
    assert (|pages| + 1) * limit == k + limit;
  }

  /** A client that follows the cursor over an unchanged table gets every matching row exactly once, in
      ascending order, in floor(n / limit) + 1 pages. */
  method ExportAll(table: seq<EntityRow>, user: Option<int>, limit: nat) returns (pages: seq<seq<EntityRow>>)
    requires IsTable(table) && 1 <= limit <= MAX_LIMIT
    ensures Concat(pages) == Listing(table, user, 0)
    ensures |pages| == |Listing(table, user, 0)| / limit + 1
  {
    ghost var all := Listing(table, user, 0);
    pages := [];
    var cursor := Some(0);
    ghost var k := 0;
    assert all[..0] == [];
    while cursor.Some?
      invariant k <= |all|
      invariant cursor.Some? ==> MidExport(all, pages, limit, k, cursor.value)
      invariant cursor.None? ==> Exported(all, pages, limit)
      decreases cursor.Some?, |all| - k
    {
      PageExtends(table, user, limit, cursor.value, k);
      var page := ExportPage(table, user, cursor.value, limit);
      if k + limit <= |all| {
        FullPage(all, pages, limit, k, cursor.value);
        k := k + limit;
      } else {
        LastPage(all, pages, limit, k, cursor.value);
      }
      pages := pages + [page.rows];
      cursor := page.next;
    }
    PageCount(|all|, limit, |pages|);
  }

  lemma PageCount(n: nat, limit: nat, pages: nat)
    requires limit > 0 && (pages - 1) * limit <= n < pages * limit
    ensures pages == n / limit + 1
  {
    var q := n / limit;
    assert q * limit <= n < (q + 1) * limit;
    Scaled(pages, q, limit);
    Scaled(q + 1, pages - 1, limit);
  }

  lemma Scaled(a: int, b: int, limit: nat)
    ensures a <= b ==> a * limit <= b * limit
  {
  }

  // ---- Rows inserted during the export --------------------------------------------------------

  /** Later tables only add rows with greater ids. */
  predicate Grows(table: seq<EntityRow>, later: seq<EntityRow>) {
    IsTable(later) && table <= later
  }

  lemma GrowthExtendsListing(table: seq<EntityRow>, later: seq<EntityRow>, user: Option<int>)
    requires Grows(table, later)
    ensures Listing(table, user, 0) <= Listing(later, user, 0)
  {
    assert later == table + later[|table|..];
    ListingAppend(table, later[|table|..], user, 0);
  }

  /** An export under growth: page i is taken from `tables[i]` with the cursor page i-1 returned. */
  predicate IsExport(tables: seq<seq<EntityRow>>, pages: seq<Page>, user: Option<int>, limit: nat) {
    && |tables| == |pages|
    && (forall i | 0 <= i < |pages| :: PageAt(tables, pages, user, limit, i))
  }

  predicate PageAt(tables: seq<seq<EntityRow>>, pages: seq<Page>, user: Option<int>, limit: nat, i: nat)
    requires |tables| == |pages| && i < |pages|
  {
    && IsTable(tables[i])
    && (i == 0 ==> pages[i] == ExportPage(tables[i], user, 0, limit))
    && (i > 0 ==>
          && Grows(tables[i - 1], tables[i])
          && pages[i - 1].Page? && pages[i - 1].next.Some?
          && pages[i] == ExportPage(tables[i], user, pages[i - 1].next.value, limit))
  }

  function RowsOf(pages: seq<Page>, n: nat): seq<EntityRow>
    requires n <= |pages|
  {
    if n == 0 then [] else RowsOf(pages, n - 1) + if pages[n - 1].Page? then pages[n - 1].rows else []
  }

  /** What the client knows after page i: a prefix of the listing and its cursor, or all of it. */
  predicate Received(all: seq<EntityRow>, got: seq<EntityRow>, next: Option<int>) {
    match next
    case Some(cursor) => 0 < |got| && got <= all && cursor == got[|got| - 1].id
    case None => got == all
  }

  lemma PrefixReceived(all: seq<EntityRow>, got: seq<EntityRow>, limit: nat)
    requires got <= all && limit > 0
    ensures var page := PageFrom(all, |got|, limit); page.Page? && Received(all, got + page.rows, page.next)
  {
    var k := |got|;
    assert got + all[k..] == all;
    if k + limit <= |all| {
      assert got + all[k..k + limit] == all[..k + limit];
    }
  }

  lemma ReceivedGrows(all: seq<EntityRow>, got: seq<EntityRow>, cursor: int, table: seq<EntityRow>, user: Option<int>,
                      limit: nat)
    requires IsTable(table) && 1 <= limit <= MAX_LIMIT && all == Listing(table, user, 0) && got <= all
    requires cursor == if got == [] then 0 else got[|got| - 1].id
    ensures var page := ExportPage(table, user, cursor, limit); page.Page? && Received(all, got + page.rows, page.next)
  {
    var k := |got|;
    PageExtends(table, user, limit, cursor, k);
    PrefixReceived(all, got, limit);
  }

  lemma ReceivedOnGrowth(table: seq<EntityRow>, later: seq<EntityRow>, got: seq<EntityRow>, cursor: int,
                         user: Option<int>, limit: nat)
    requires Grows(table, later) && 1 <= limit <= MAX_LIMIT
    requires Received(Listing(table, user, 0), got, Some(cursor))
    ensures var page := ExportPage(later, user, cursor, limit);
      page.Page? && Received(Listing(later, user, 0), got + page.rows, page.next)
  {
    GrowthExtendsListing(table, later, user);
    ReceivedGrows(Listing(later, user, 0), got, cursor, later, user, limit);
  }

  /** The rows of the first i + 1 pages, against the listing of the table page i came from. */
  predicate ReceivedAt(tables: seq<seq<EntityRow>>, pages: seq<Page>, user: Option<int>, i: nat)
    requires |tables| == |pages| && i < |pages|
  {
    pages[i].Page? && Received(Listing(tables[i], user, 0), RowsOf(pages, i + 1), pages[i].next)
  }

  lemma FirstPage(tables: seq<seq<EntityRow>>, pages: seq<Page>, user: Option<int>, limit: nat)
    requires 1 <= limit <= MAX_LIMIT && |tables| == |pages| > 0 && PageAt(tables, pages, user, limit, 0)
    ensures ReceivedAt(tables, pages, user, 0)
  {
    ReceivedGrows(Listing(tables[0], user, 0), [], 0, tables[0], user, limit);
    assert RowsOf(pages, 1) == RowsOf(pages, 0) + pages[0].rows;
  }

  lemma NextPage(tables: seq<seq<EntityRow>>, pages: seq<Page>, user: Option<int>, limit: nat, i: nat)
    requires 1 <= limit <= MAX_LIMIT && |tables| == |pages| && i + 1 < |pages|
    requires PageAt(tables, pages, user, limit, i + 1) && ReceivedAt(tables, pages, user, i)
    ensures ReceivedAt(tables, pages, user, i + 1)
  {
    var got := RowsOf(pages, i + 1);
    ReceivedOnGrowth(tables[i], tables[i + 1], got, pages[i].next.value, user, limit);
    assert RowsOf(pages, i + 2) == got + pages[i + 1].rows;
  }

  /** After each page the rows received are a prefix of the simple listing of the table that page came from;
      when the cursor runs out they are all of it. So rows inserted meanwhile with greater ids never cause a
      skip or a repeat. */
  lemma GrowthNeverSkips(tables: seq<seq<EntityRow>>, pages: seq<Page>, user: Option<int>, limit: nat, i: nat)
    requires 1 <= limit <= MAX_LIMIT && IsExport(tables, pages, user, limit) && i < |pages|
    ensures ReceivedAt(tables, pages, user, i)
  {
    assert PageAt(tables, pages, user, limit, 0);
    FirstPage(tables, pages, user, limit);
    for j := 0 to i
      invariant ReceivedAt(tables, pages, user, j)
    {
      assert PageAt(tables, pages, user, limit, j + 1);
      NextPage(tables, pages, user, limit, j);
    }
  }
}
