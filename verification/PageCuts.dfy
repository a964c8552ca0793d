// Which walks list everything: the page cuts must not fall between payments created at the same instant.
module PageCuts {
  import opened Entities
  import opened Queries
  import opened Pagination

  function Newer(rows: map<Uuid, int>, time: int): set<Uuid> {
    set k | k in rows && rows[k] > time
  }

  function NoOlder(rows: map<Uuid, int>, time: int): set<Uuid> {
    set k | k in rows && rows[k] >= time
  }

  // Listed newest first and cut every limit rows, the rows created with k all fall on one page.
  predicate Together(rows: map<Uuid, int>, limit: nat, k: Uuid)
    requires limit >= 1 && k in rows
  {
    |Newer(rows, rows[k])| / limit == (|NoOlder(rows, rows[k])| - 1) / limit
  }

  predicate NoTieCut(rows: map<Uuid, int>, limit: nat)
    requires limit >= 1
  {
    forall k :: k in rows ==> Together(rows, limit, k)
  }

  predicate Complete(rows: map<Uuid, int>, cursor: Option<int>, pages: seq<Page>) {
    forall k :: k in Before(rows, cursor) ==> k in Items(pages)
  }

  // ----- counting

  lemma {:induction false} SmallQuotient(n: int, limit: nat)
    requires 0 <= n < limit
    ensures n / limit == 0
  {
  }

  lemma {:induction false} NextQuotient(n: nat, limit: nat)
    requires limit >= 1
    ensures (n + limit) / limit == n / limit + 1
  {
    var q, r, u := n / limit, n % limit, (n + limit) / limit;
    assert n + limit == q * limit + limit + r;
    Steps(u - q - 1, limit);
    assert (u - q - 1) * limit == u * limit - q * limit - limit;
  }

  lemma {:induction false} Steps(d: int, limit: nat)
    ensures d >= 1 ==> d * limit >= limit
    ensures d <= -1 ==> d * limit <= 0 - limit
  {
    if d >= 1 {
      assert (d - 1) * limit >= 0;
    } else if d <= -1 {
      assert (-1 - d) * limit >= 0;
    }
  }

  // A small table is one page.
  lemma {:induction false} AllTogether(rows: map<Uuid, int>, limit: nat, k: Uuid)
    requires limit >= 1 && k in rows && |NoOlder(rows, rows[k])| <= limit
    ensures Together(rows, limit, k)
  {
    var newer, noOlder := Newer(rows, rows[k]), NoOlder(rows, rows[k]);
    assert k in noOlder && newer <= noOlder - {k};
    SubsetSize(newer, noOlder - {k});
    SmallQuotient(|newer|, limit);
    SmallQuotient(|noOlder| - 1, limit);
  }

  // Rows tied with the last row of a full page, but not on it, are cut off from it.
  lemma {:induction false} CutApart(rows: map<Uuid, int>, limit: nat, items: seq<Uuid>, k: Uuid)
    requires limit >= 1 && |items| == limit && Distinct(items) && k in rows && k !in items
    requires forall j :: j in items ==> j in rows && rows[j] >= rows[k]
    requires forall j :: j in Newer(rows, rows[k]) ==> j in items
    requires rows[items[limit - 1]] == rows[k]
    ensures !Together(rows, limit, k)
  {
    var newer, noOlder, last := Newer(rows, rows[k]), NoOlder(rows, rows[k]), items[limit - 1];
    DistinctSize(items);
    assert last in items && last !in newer;
    SubsetSize(newer, Elements(items) - {last});
    SubsetSize(Elements(items) + {k}, noOlder);
    SmallQuotient(|newer|, limit);
    NextQuotient(|noOlder| - 1 - limit, limit);
  }

  // Dropping a full first page shifts all counts by its size.
  lemma {:induction false} ShiftTogether(rows: map<Uuid, int>, limit: nat, time: int, k: Uuid)
    requires limit >= 1 && |NoOlder(rows, time)| == limit && k in rows && rows[k] < time
    ensures k in Before(rows, Some(time))
    ensures Together(Before(rows, Some(time)), limit, k) <==> Together(rows, limit, k)
  {
    var rest := Before(rows, Some(time));
    assert Newer(rows, rows[k]) == NoOlder(rows, time) + Newer(rest, rows[k]);
    assert NoOlder(rows, rows[k]) == NoOlder(rows, time) + NoOlder(rest, rows[k]);
    assert k in NoOlder(rest, rows[k]);
    NextQuotient(|Newer(rest, rows[k])|, limit);
    NextQuotient(|NoOlder(rest, rows[k])| - 1, limit);
  }

  // ----- one page of a walk

  lemma {:induction false} OnlyPage(rows: map<Uuid, int>, cursor: Option<int>, limit: nat, page: Page)
    requires limit >= 1 && IsPage(rows, cursor, limit, page) && page.nextCursor.None?
    ensures NoTieCut(Before(rows, cursor), limit)
  {
    var all := Before(rows, cursor);
    PageMeans(rows, cursor, limit, page);
    forall k | k in all ensures Together(all, limit, k) {
      SubsetSize(NoOlder(all, all[k]), Elements(page.items));
      DistinctSize(page.items);
      AllTogether(all, limit, k);
    }
  }

  lemma {:induction false} FullPage(rows: map<Uuid, int>, cursor: Option<int>, limit: nat, page: Page)
    requires limit >= 1 && IsPage(rows, cursor, limit, page) && page.nextCursor.Some?
    ensures |page.items| == limit
  {
    var all := Before(rows, cursor);
    var fetched :| Answers(all, limit + 1, fetched) && page == CutPage(all, fetched, limit);
    CutMeans(all, fetched, limit, page);
  }

  // The page ends inside a tie.
  ghost predicate EndsInTie(rows: map<Uuid, int>, cursor: Option<int>, page: Page) {
    exists k :: k in Before(rows, cursor) && k !in page.items && page.nextCursor == Some(rows[k])
  }

  lemma {:induction false} TieCut(rows: map<Uuid, int>, cursor: Option<int>, limit: nat, page: Page)
    requires limit >= 1 && IsPage(rows, cursor, limit, page) && EndsInTie(rows, cursor, page)
    ensures !NoTieCut(Before(rows, cursor), limit)
  {
    var k :| k in Before(rows, cursor) && k !in page.items && page.nextCursor == Some(rows[k]);
    PageMeans(rows, cursor, limit, page);
    FullPage(rows, cursor, limit, page);
    CutApart(Before(rows, cursor), limit, page.items, k);
  }

  // The page ends with a whole tie, so the rest can be cut on its own.
  lemma {:induction false} CleanCut(rows: map<Uuid, int>, cursor: Option<int>, limit: nat, page: Page)
    requires limit >= 1 && IsPage(rows, cursor, limit, page) && page.nextCursor.Some?
    requires !EndsInTie(rows, cursor, page)
    ensures NoTieCut(Before(rows, cursor), limit) <==> NoTieCut(Before(rows, page.nextCursor), limit)
  {
    CleanPage(rows, cursor, limit, page);
    ShiftNoTieCut(Before(rows, cursor), limit, page.nextCursor.value);
  }

  lemma {:induction false} CleanPage(rows: map<Uuid, int>, cursor: Option<int>, limit: nat, page: Page)
    requires limit >= 1 && IsPage(rows, cursor, limit, page) && page.nextCursor.Some?
    requires !EndsInTie(rows, cursor, page)
    ensures |NoOlder(Before(rows, cursor), page.nextCursor.value)| == limit
    ensures Before(Before(rows, cursor), page.nextCursor) == Before(rows, page.nextCursor)
    ensures forall k :: k in Before(rows, cursor) <==> k in page.items || k in Before(rows, page.nextCursor)
  {
    PageTakes(rows, cursor, limit, page);
    FullPage(rows, cursor, limit, page);
    NextIsLower(rows, cursor, limit, page);
    TakenCount(rows, cursor, page.nextCursor.value, page.items);
  }

  lemma {:induction false} PageTakes(rows: map<Uuid, int>, cursor: Option<int>, limit: nat, page: Page)
    requires limit >= 1 && IsPage(rows, cursor, limit, page) && page.nextCursor.Some?
    requires !EndsInTie(rows, cursor, page)
    ensures Distinct(page.items) && forall k :: k in page.items ==> k in Before(rows, cursor)
    ensures forall k :: k in Before(rows, cursor) ==> (k in page.items <==> rows[k] >= page.nextCursor.value)
  {
    PageMeans(rows, cursor, limit, page);
  }

  lemma {:induction false} TakenCount(rows: map<Uuid, int>, cursor: Option<int>, time: int, items: seq<Uuid>)
    requires Distinct(items) && forall k :: k in items ==> k in Before(rows, cursor)
    requires forall k :: k in Before(rows, cursor) ==> (k in items <==> rows[k] >= time)
    requires cursor.Some? ==> time < cursor.value
    ensures |NoOlder(Before(rows, cursor), time)| == |items|
    ensures Before(Before(rows, cursor), Some(time)) == Before(rows, Some(time))
    ensures forall k :: k in Before(rows, cursor) <==> k in items || k in Before(rows, Some(time))
  {
    DistinctSize(items);
    assert NoOlder(Before(rows, cursor), time) == Elements(items);
  }

  lemma {:induction false} ShiftNoTieCut(rows: map<Uuid, int>, limit: nat, time: int)
    requires limit >= 1 && |NoOlder(rows, time)| == limit
    ensures NoTieCut(rows, limit) <==> NoTieCut(Before(rows, Some(time)), limit)
  {
    var rest := Before(rows, Some(time));
    forall k | k in rows && rows[k] >= time ensures Together(rows, limit, k) {
      SubsetSize(NoOlder(rows, rows[k]), NoOlder(rows, time));
      AllTogether(rows, limit, k);
    }
    forall k | k in rows && rows[k] < time ensures k in rest
      && (Together(rest, limit, k) <==> Together(rows, limit, k)) {
      ShiftTogether(rows, limit, time, k);
    }
  }

  // ----- whole walks

  // Exactly when a finished walk lists every payment before the cursor: no page cut falls inside a tie.
  // It depends on the creation times and the limit alone, not on how the database breaks ties.
  lemma {:induction false} CompleteIffNoTieCut(rows: map<Uuid, int>, cursor: Option<int>, limit: nat, pages: seq<Page>)
    requires Walk(rows, cursor, limit, pages) && limit >= 1
    ensures Complete(rows, cursor, pages) <==> NoTieCut(Before(rows, cursor), limit)
    decreases |pages|
  {
    if pages[0].nextCursor.None? {
      OneIff(rows, cursor, limit, pages);
    } else if EndsInTie(rows, cursor, pages[0]) {
      TieIff(rows, cursor, limit, pages);
    } else {
      RestWalks(rows, cursor, limit, pages);
      CompleteIffNoTieCut(rows, pages[0].nextCursor, limit, pages[1..]);
      CleanIff(rows, cursor, limit, pages);
    }
  }

  lemma {:induction false} OneIff(rows: map<Uuid, int>, cursor: Option<int>, limit: nat, pages: seq<Page>)
    requires Walk(rows, cursor, limit, pages) && limit >= 1 && pages[0].nextCursor.None?
    ensures Complete(rows, cursor, pages) <==> NoTieCut(Before(rows, cursor), limit)
  {
    OnlyPage(rows, cursor, limit, pages[0]);
    OnlyPageComplete(rows, cursor, limit, pages);
  }

  lemma {:induction false} TieIff(rows: map<Uuid, int>, cursor: Option<int>, limit: nat, pages: seq<Page>)
    requires Walk(rows, cursor, limit, pages) && limit >= 1 && EndsInTie(rows, cursor, pages[0])
    ensures Complete(rows, cursor, pages) <==> NoTieCut(Before(rows, cursor), limit)
  {
    TieCut(rows, cursor, limit, pages[0]);
    TieLost(rows, cursor, limit, pages);
  }

  lemma {:induction false} CleanIff(rows: map<Uuid, int>, cursor: Option<int>, limit: nat, pages: seq<Page>)
    requires Walk(rows, cursor, limit, pages) && limit >= 1
    requires pages[0].nextCursor.Some? && !EndsInTie(rows, cursor, pages[0])
    requires Complete(rows, pages[0].nextCursor, pages[1..]) <==> NoTieCut(Before(rows, pages[0].nextCursor), limit)
    ensures Complete(rows, cursor, pages) <==> NoTieCut(Before(rows, cursor), limit)
  {
    CleanCut(rows, cursor, limit, pages[0]);
    CleanPage(rows, cursor, limit, pages[0]);
    RestComplete(rows, cursor, limit, pages);
  }

  lemma {:induction false} RestWalks(rows: map<Uuid, int>, cursor: Option<int>, limit: nat, pages: seq<Page>)
    requires Walk(rows, cursor, limit, pages) && pages[0].nextCursor.Some?
    ensures Walk(rows, pages[0].nextCursor, limit, pages[1..])
  {
  }

  lemma {:induction false} OnlyPageComplete(rows: map<Uuid, int>, cursor: Option<int>, limit: nat, pages: seq<Page>)
    requires Walk(rows, cursor, limit, pages) && limit >= 1 && pages[0].nextCursor.None?
    ensures Complete(rows, cursor, pages)
  {
    PageMeans(rows, cursor, limit, pages[0]);
  }

  lemma {:induction false} TieLost(rows: map<Uuid, int>, cursor: Option<int>, limit: nat, pages: seq<Page>)
    requires Walk(rows, cursor, limit, pages) && limit >= 1 && EndsInTie(rows, cursor, pages[0])
    ensures !Complete(rows, cursor, pages)
  {
    var k :| k in Before(rows, cursor) && k !in pages[0].items && pages[0].nextCursor == Some(rows[k]);
    TrailItems(rows, pages[0].nextCursor, limit, pages[1..]);
    assert k !in Items(pages);
  }

  lemma {:induction false} RestComplete(rows: map<Uuid, int>, cursor: Option<int>, limit: nat, pages: seq<Page>)
    requires Walk(rows, cursor, limit, pages) && limit >= 1 && pages[0].nextCursor.Some?
    requires forall k :: k in Before(rows, cursor) <==> k in pages[0].items || k in Before(rows, pages[0].nextCursor)
    ensures Complete(rows, cursor, pages) <==> Complete(rows, pages[0].nextCursor, pages[1..])
  {
    PageMeans(rows, cursor, limit, pages[0]);
    forall k | k in Before(rows, pages[0].nextCursor) ensures k !in pages[0].items {}
  }

  ghost predicate DistinctTimes(rows: map<Uuid, int>) {
    forall j, k :: j in rows && k in rows && rows[j] == rows[k] ==> j == k
  }

  lemma {:induction false} DistinctIsNoTieCut(rows: map<Uuid, int>, limit: nat)
    requires DistinctTimes(rows) && limit >= 1
    ensures NoTieCut(rows, limit)
  {
    forall k | k in rows ensures Together(rows, limit, k) {
      assert NoOlder(rows, rows[k]) == Newer(rows, rows[k]) + {k};
    }
  }

  // With distinct creation times a finished walk lists exactly the payments before the cursor, newest first.
  lemma {:induction false} WalkIsComplete(rows: map<Uuid, int>, cursor: Option<int>, limit: nat, pages: seq<Page>)
    requires Walk(rows, cursor, limit, pages) && limit >= 1 && DistinctTimes(Before(rows, cursor))
    ensures forall k :: k in Before(rows, cursor) <==> k in Items(pages)
    ensures Distinct(Items(pages)) && Descending(rows, Items(pages))
  {
    NeverRepeats(rows, cursor, limit, pages);
    TrailItems(rows, cursor, limit, pages);
    DistinctIsNoTieCut(Before(rows, cursor), limit);
    CompleteIffNoTieCut(rows, cursor, limit, pages);
  }

  // Two payments created at the same instant suffice to lose one: at some limit every walk does.
  lemma {:induction false} TieLosesARow(rows: map<Uuid, int>, cursor: Option<int>, j: Uuid, k: Uuid)
    returns (limit: nat, pages: seq<Page>, lost: Uuid)
    requires j in Before(rows, cursor) && k in Before(rows, cursor) && j != k && rows[j] == rows[k]
    ensures limit >= 1 && Walk(rows, cursor, limit, pages)
    ensures lost in Before(rows, cursor) && lost !in Items(pages)
  {
    var all := Before(rows, cursor);
    limit := |Newer(all, all[k])| + 1;
    TieIsCut(all, j, k);
    pages := WalkExists(rows, cursor, limit);
    CompleteIffNoTieCut(rows, cursor, limit, pages);
    lost :| lost in all && lost !in Items(pages);
  }

  lemma {:induction false} TieIsCut(rows: map<Uuid, int>, j: Uuid, k: Uuid)
    requires j in rows && k in rows && j != k && rows[j] == rows[k]
    ensures !NoTieCut(rows, |Newer(rows, rows[k])| + 1)
  {
    var newer, noOlder := Newer(rows, rows[k]), NoOlder(rows, rows[k]);
    var limit := |newer| + 1;
    assert newer + {j, k} <= noOlder && newer !! {j, k};
    SubsetSize(newer + {j, k}, noOlder);
    SmallQuotient(|newer|, limit);
    NextQuotient(|noOlder| - 1 - limit, limit);
    assert !Together(rows, limit, k);
  }

  ghost predicate WalksAreComplete(rows: map<Uuid, int>, cursor: Option<int>) {
    forall limit, pages :: limit >= 1 && Walk(rows, cursor, limit, pages) ==> Complete(rows, cursor, pages)
  }

  // Every finished walk at every limit is complete exactly when the creation times before the cursor differ.
  lemma {:induction false} CompleteIffDistinct(rows: map<Uuid, int>, cursor: Option<int>)
    ensures WalksAreComplete(rows, cursor) <==> DistinctTimes(Before(rows, cursor))
  {
    var all := Before(rows, cursor);
    if DistinctTimes(all) {
      forall limit, pages | limit >= 1 && Walk(rows, cursor, limit, pages) ensures Complete(rows, cursor, pages) {
        WalkIsComplete(rows, cursor, limit, pages);
      }
    } else {
      var j, k :| j in all && k in all && all[j] == all[k] && j != k;
      var limit, pages, lost := TieLosesARow(rows, cursor, j, k);
      assert !Complete(rows, cursor, pages);
    }
  }

  // ----- the payment table

  function StatusText(s: PaymentStatus): string {
    match s
    case Created => "created"
    case Processing => "processing"
    case Completed => "completed"
    case Canceled => "canceled"
    case Failed => "failed"
  }

  // A text that names no status filters nothing.
  ghost predicate Listed(p: Payment, merchantId: Uuid, status: Option<string>, cursor: Option<int>) {
    && p.merchantId == merchantId
    && (status.None? || status.value == StatusText(p.status) || forall s :: status.value != StatusText(s))
    && (cursor.None? || p.createdAt < cursor.value)
  }

  // The parser knows exactly these texts.
  lemma {:induction false} ParsedStatus(text: string, s: PaymentStatus)
    ensures ParseStatus(text) == Some(s) <==> text == StatusText(s)
  {
  }

  lemma {:induction false} FilterMeans(status: Option<string>, s: PaymentStatus)
    ensures FilterOf(status) == None || FilterOf(status) == Some(s)
        <==> status.None? || status.value == StatusText(s) || forall other :: status.value != StatusText(other)
  {
    if status.Some? {
      ParsedStatus(status.value, s);
      if ParseStatus(status.value).Some? {
        ParsedStatus(status.value, ParseStatus(status.value).value);
      } else {
        forall other ensures status.value != StatusText(other) {
          ParsedStatus(status.value, other);
        }
      }
    }
  }

  lemma {:induction false} SelectedMeans(t: Tables, merchantId: Uuid, status: Option<string>, cursor: Option<int>)
    ensures forall k :: k in Before(Selected(t, merchantId, status), cursor)
                   <==> k in t.payments && Listed(t.payments[k], merchantId, status, cursor)
  {
    forall k | k in t.payments
      ensures k in Before(Selected(t, merchantId, status), cursor)
         <==> Listed(t.payments[k], merchantId, status, cursor)
    {
      FilterMeans(status, t.payments[k].status);
    }
  }

  // A client that follows the cursors sees only the merchant's payments created before the first cursor with
  // the status asked for, each once and newest first, and sees all of them exactly if no page cut falls
  // inside a tie.
  lemma {:induction false} ListingOfMerchant(t: Tables, merchantId: Uuid, status: Option<string>, cursor: Option<int>,
                                             limit: nat, pages: seq<Page>)
    requires Walk(Selected(t, merchantId, status), cursor, limit, pages) && limit >= 1
    ensures forall k :: k in Items(pages) ==> k in t.payments && Listed(t.payments[k], merchantId, status, cursor)
    ensures Distinct(Items(pages))
    ensures forall i, j :: 0 <= i < j < |Items(pages)| ==>
              t.payments[Items(pages)[i]].createdAt >= t.payments[Items(pages)[j]].createdAt
    ensures (forall k :: k in t.payments && Listed(t.payments[k], merchantId, status, cursor) ==> k in Items(pages))
        <==> NoTieCut(Before(Selected(t, merchantId, status), cursor), limit)
  {
    var rows := Selected(t, merchantId, status);
    SelectedMeans(t, merchantId, status, cursor);
    TrailItems(rows, cursor, limit, pages);
    NeverRepeats(rows, cursor, limit, pages);
    CompleteIffNoTieCut(rows, cursor, limit, pages);
  }
}
