// Listing a merchant's payments page by page.
module Pagination {
  import opened Entities
  import opened Queries

  // The status filter of the service: an unknown or empty string filters nothing.
  function ParseStatus(text: string): Option<PaymentStatus> {
    if text == "created" then Some(Created)
    else if text == "processing" then Some(Processing)
    else if text == "completed" then Some(Completed)
    else if text == "canceled" then Some(Canceled)
    else if text == "failed" then Some(Failed)
    else None
  }

  function FilterOf(status: Option<string>): Option<PaymentStatus> {
    match status
    case None => None
    case Some(text) => ParseStatus(text)
  }

  // The creation times of the payments that merchant and filter select.
  function Selected(t: Tables, merchantId: Uuid, status: Option<string>): map<Uuid, int> {
    map k | k in t.payments && t.payments[k].merchantId == merchantId
            && (FilterOf(status).None? || t.payments[k].status == FilterOf(status).value)
      :: t.payments[k].createdAt
  }

  // The rows created strictly before the cursor.
  function Before(rows: map<Uuid, int>, cursor: Option<int>): map<Uuid, int> {
    map k | k in rows && (cursor.None? || rows[k] < cursor.value) :: rows[k]
  }

  datatype Page = Page(items: seq<Uuid>, nextCursor: Option<int>)

  // The route's cut of limit + 1 fetched rows.
  function CutPage(rows: map<Uuid, int>, fetched: seq<Uuid>, limit: nat): Page
    requires forall k :: k in fetched ==> k in rows
  {
    var hasMore := |fetched| > limit;
    var items := if hasMore then fetched[..limit] else fetched;
    Page(items, if hasMore && items != [] then Some(rows[items[|items| - 1]]) else None)
  }

  // A possible response of the route: newest first, ties broken at will.
  ghost predicate IsPage(rows: map<Uuid, int>, cursor: Option<int>, limit: nat, page: Page) {
    exists fetched :: Answers(Before(rows, cursor), limit + 1, fetched)
      && page == CutPage(Before(rows, cursor), fetched, limit)
  }

  // The pages a client has seen so far by following next_cursor.
  ghost predicate Trail(rows: map<Uuid, int>, cursor: Option<int>, limit: nat, pages: seq<Page>)
    decreases |pages|
  {
    pages == []
    || (IsPage(rows, cursor, limit, pages[0])
        && if pages[0].nextCursor.None? then |pages| == 1
           else Trail(rows, pages[0].nextCursor, limit, pages[1..]))
  }

  // The client stopped because there was no next cursor.
  ghost predicate Walk(rows: map<Uuid, int>, cursor: Option<int>, limit: nat, pages: seq<Page>) {
    Trail(rows, cursor, limit, pages) && pages != [] && pages[|pages| - 1].nextCursor.None?
  }

  function Items(pages: seq<Page>): seq<Uuid>
    decreases |pages|
  {
    if pages == [] then [] else pages[0].items + Items(pages[1..])
  }

  // k shares its creation time with the last item of some page but is not on that page.
  ghost predicate TiedOff(rows: map<Uuid, int>, pages: seq<Page>, k: Uuid)
    requires k in rows
  {
    exists n :: 0 <= n < |pages| && pages[n].nextCursor == Some(rows[k]) && k !in pages[n].items
  }

  // ----- one page

  // A page is a descending run of rows before the cursor, as many as there are up to the limit; nothing newer
  // than its end is left out, and it has a next cursor exactly if something is left out.
  lemma {:induction false} PageMeans(rows: map<Uuid, int>, cursor: Option<int>, limit: nat, page: Page)
    requires IsPage(rows, cursor, limit, page) && limit >= 1
    ensures forall k :: k in page.items ==> k in Before(rows, cursor)
    ensures Distinct(page.items) && Descending(Before(rows, cursor), page.items)
    ensures |page.items| == if |Before(rows, cursor)| < limit then |Before(rows, cursor)| else limit
    ensures page.nextCursor.Some? <==> |Before(rows, cursor)| > limit
    ensures page.nextCursor.None? ==> forall k :: k in Before(rows, cursor) ==> k in page.items
    ensures page.nextCursor.Some? ==>
              && page.items != [] && rows[page.items[|page.items| - 1]] == page.nextCursor.value
              && (forall k :: k in page.items ==> rows[k] >= page.nextCursor.value)
              && (forall k :: k in Before(rows, cursor) && k !in page.items ==> rows[k] <= page.nextCursor.value)
  {
    var all := Before(rows, cursor);
    var fetched :| Answers(all, limit + 1, fetched) && page == CutPage(all, fetched, limit);
    if |fetched| > limit {
      CutMeans(all, fetched, limit, page);
    } else {
      AnswerIsComplete(all, limit + 1, fetched);
    }
  }

  lemma {:induction false} CutMeans(all: map<Uuid, int>, fetched: seq<Uuid>, limit: nat, page: Page)
    requires limit >= 1 && Answers(all, limit + 1, fetched) && |fetched| > limit && page == CutPage(all, fetched, limit)
    ensures forall k :: k in page.items ==> k in all
    ensures Distinct(page.items) && Descending(all, page.items) && |page.items| == limit
    ensures page.nextCursor == Some(all[page.items[limit - 1]])
    ensures forall k :: k in page.items ==> all[k] >= page.nextCursor.value
    ensures forall k :: k in all && k !in page.items ==> all[k] <= page.nextCursor.value
  {
    var items := page.items;
    assert items == fetched[..limit];
    forall i | 0 <= i < limit ensures items[i] in all && all[items[i]] >= all[items[limit - 1]] {
      assert items[i] == fetched[i] && fetched[i] in fetched;
    }
    forall k | k in all && k !in items ensures all[k] <= all[items[limit - 1]] {
      if k in fetched {
        assert k == fetched[limit];
      }
    }
  }

  // A limit of zero, which the route does not refuse, gives an empty page that ends the walk.
  lemma {:induction false} ZeroLimitEndsAtOnce(rows: map<Uuid, int>, cursor: Option<int>, page: Page)
    requires IsPage(rows, cursor, 0, page)
    ensures page == Page([], None)
  {
    var fetched :| Answers(Before(rows, cursor), 1, fetched) && page == CutPage(Before(rows, cursor), fetched, 0);
    assert fetched[..0] == [];
  }

  // ----- whole walks

  lemma {:induction false} TrailItems(rows: map<Uuid, int>, cursor: Option<int>, limit: nat, pages: seq<Page>)
    requires Trail(rows, cursor, limit, pages) && limit >= 1
    ensures forall k :: k in Items(pages) ==> k in Before(rows, cursor)
    decreases |pages|
  {
    if pages != [] {
      PageMeans(rows, cursor, limit, pages[0]);
      if pages[0].nextCursor.Some? {
        TrailItems(rows, pages[0].nextCursor, limit, pages[1..]);
      } else {
        assert pages[1..] == [];
      }
    }
  }

  lemma {:induction false} JoinDescending(rows: map<Uuid, int>, a: seq<Uuid>, b: seq<Uuid>, bound: int)
    requires forall k :: k in a ==> k in rows && rows[k] >= bound
    requires forall k :: k in b ==> k in rows && rows[k] < bound
    requires Distinct(a) && Distinct(b) && Descending(rows, a) && Descending(rows, b)
    ensures forall k :: k in a + b ==> k in rows
    ensures Distinct(a + b) && Descending(rows, a + b)
  {
    var c := a + b;
    forall i, j | 0 <= i < j < |c| ensures c[i] != c[j] && rows[c[i]] >= rows[c[j]] {
      assert i < |a| ==> c[i] in a;
      assert j >= |a| ==> c[j] in b;
    }
  }

  // No payment is ever repeated, and creation times never increase, whatever ties are broken how.
  lemma {:induction false} NeverRepeats(rows: map<Uuid, int>, cursor: Option<int>, limit: nat, pages: seq<Page>)
    requires Trail(rows, cursor, limit, pages) && limit >= 1
    ensures forall k :: k in Items(pages) ==> k in rows
    ensures Distinct(Items(pages)) && Descending(rows, Items(pages))
    decreases |pages|
  {
    if pages != [] {
      var p, rest := pages[0], pages[1..];
      PageMeans(rows, cursor, limit, p);
      if p.nextCursor.Some? {
        NeverRepeats(rows, p.nextCursor, limit, rest);
        TrailItems(rows, p.nextCursor, limit, rest);
        JoinDescending(rows, p.items, Items(rest), p.nextCursor.value);
      } else {
        assert rest == [];
        assert p.items + [] == p.items;
      }
    }
  }

  lemma {:induction false} FewerBefore(rows: map<Uuid, int>, cursor: Option<int>, next: int, k: Uuid)
    requires k in Before(rows, cursor) && rows[k] == next
    ensures |Before(rows, Some(next))| < |Before(rows, cursor)|
  {
    var small, large := Before(rows, Some(next)), Before(rows, cursor);
    assert small.Keys <= large.Keys - {k};
    SubsetSize(small.Keys, large.Keys - {k});
    assert large.Keys == (large.Keys - {k}) + {k};
  }

  // Every walk ends: no client sees more pages than there are payments before its cursor, plus one.
  lemma {:induction false} WalksEnd(rows: map<Uuid, int>, cursor: Option<int>, limit: nat, pages: seq<Page>)
    requires Trail(rows, cursor, limit, pages) && limit >= 1
    ensures |pages| <= |Before(rows, cursor)| + 1
    decreases |pages|
  {
    if pages != [] && pages[0].nextCursor.Some? {
      var p := pages[0];
      PageMeans(rows, cursor, limit, p);
      WalksEnd(rows, p.nextCursor, limit, pages[1..]);
      FewerBefore(rows, cursor, p.nextCursor.value, p.items[|p.items| - 1]);
    }
  }

  lemma {:induction false} FirstPage(rows: map<Uuid, int>, cursor: Option<int>, limit: nat) returns (p: Page)
    requires limit >= 1
    ensures IsPage(rows, cursor, limit, p)
    ensures p.nextCursor.Some? ==> |Before(rows, p.nextCursor)| < |Before(rows, cursor)|
  {
    var fetched := AnswerExists(Before(rows, cursor), limit + 1);
    p := CutPage(Before(rows, cursor), fetched, limit);
    assert IsPage(rows, cursor, limit, p);
    if p.nextCursor.Some? {
      PageMeans(rows, cursor, limit, p);
      FewerBefore(rows, cursor, p.nextCursor.value, p.items[|p.items| - 1]);
    }
  }

  lemma {:induction false} WalkPrepend(rows: map<Uuid, int>, cursor: Option<int>, limit: nat, p: Page, rest: seq<Page>)
    requires IsPage(rows, cursor, limit, p) && p.nextCursor.Some?
    requires Walk(rows, p.nextCursor, limit, rest)
    ensures Walk(rows, cursor, limit, [p] + rest)
  {
    TrailPrepend(rows, cursor, limit, p, rest);
  }

  lemma {:induction false} TrailPrepend(rows: map<Uuid, int>, cursor: Option<int>, limit: nat, p: Page, rest: seq<Page>)
    requires IsPage(rows, cursor, limit, p) && p.nextCursor.Some?
    requires Trail(rows, p.nextCursor, limit, rest)
    ensures Trail(rows, cursor, limit, [p] + rest)
  {
    assert ([p] + rest)[1..] == rest;
  }

  // And a walk can always be finished.
  lemma {:induction false} WalkExists(rows: map<Uuid, int>, cursor: Option<int>, limit: nat) returns (pages: seq<Page>)
    requires limit >= 1
    ensures Walk(rows, cursor, limit, pages)
    decreases |Before(rows, cursor)|
  {
    var p := FirstPage(rows, cursor, limit);
    if p.nextCursor.Some? {
      var rest := WalkExists(rows, p.nextCursor, limit);
      WalkPrepend(rows, cursor, limit, p, rest);
      pages := [p] + rest;
    } else {
      pages := [p];
    }
  }

  lemma {:induction false} TiedOffPrepend(rows: map<Uuid, int>, p: Page, rest: seq<Page>, k: Uuid)
    requires k in rows
    ensures TiedOff(rows, [p] + rest, k) <==> (p.nextCursor == Some(rows[k]) && k !in p.items) || TiedOff(rows, rest, k)
  {
    var pages := [p] + rest;
    if TiedOff(rows, pages, k) {
      var n :| 0 <= n < |pages| && pages[n].nextCursor == Some(rows[k]) && k !in pages[n].items;
      assert n > 0 ==> pages[n] == rest[n - 1];
    }
    if TiedOff(rows, rest, k) {
      var n :| 0 <= n < |rest| && rest[n].nextCursor == Some(rows[k]) && k !in rest[n].items;
      assert pages[n + 1] == rest[n];
    }
    if p.nextCursor == Some(rows[k]) && k !in p.items {
      assert pages[0].nextCursor == Some(rows[k]);
    }
  }

  // Cursors only go down.
  lemma {:induction false} NextIsLower(rows: map<Uuid, int>, cursor: Option<int>, limit: nat, page: Page)
    requires IsPage(rows, cursor, limit, page) && limit >= 1
    ensures page.nextCursor.Some? && cursor.Some? ==> page.nextCursor.value < cursor.value
  {
    PageMeans(rows, cursor, limit, page);
    if page.nextCursor.Some? {
      assert page.items[|page.items| - 1] in Before(rows, cursor);
    }
  }

  lemma {:induction false} NotTiedLater(rows: map<Uuid, int>, cursor: Option<int>, limit: nat, pages: seq<Page>,
                                        k: Uuid)
    requires Trail(rows, cursor, limit, pages) && limit >= 1
    requires k in rows && k !in Before(rows, cursor)
    ensures !TiedOff(rows, pages, k)
    decreases |pages|
  {
    if pages != [] {
      var p, rest := pages[0], pages[1..];
      NextIsLower(rows, cursor, limit, p);
      assert pages == [p] + rest;
      TiedOffPrepend(rows, p, rest, k);
      if p.nextCursor.Some? {
        NotTiedLater(rows, p.nextCursor, limit, rest, k);
      }
    }
  }

  // Where one row stands relative to a page.
  lemma {:induction false} RowAndPage(rows: map<Uuid, int>, cursor: Option<int>, limit: nat, page: Page, k: Uuid)
    requires IsPage(rows, cursor, limit, page) && limit >= 1 && k in Before(rows, cursor)
    ensures page.nextCursor.None? ==> k in page.items
    ensures page.nextCursor.Some? && k in page.items ==> rows[k] >= page.nextCursor.value
    ensures page.nextCursor.Some? && k !in page.items ==> rows[k] <= page.nextCursor.value
  {
    PageMeans(rows, cursor, limit, page);
  }

  // A finished walk misses a payment exactly when it ties in creation time with the last item of a page
  // that has a successor and is not on that page.
  lemma {:induction false} MissedIffTied(rows: map<Uuid, int>, cursor: Option<int>, limit: nat, pages: seq<Page>,
                                         k: Uuid)
    requires Walk(rows, cursor, limit, pages) && limit >= 1 && k in Before(rows, cursor)
    ensures k !in Items(pages) <==> TiedOff(rows, pages, k)
    decreases |pages|
  {
    var p, rest := pages[0], pages[1..];
    RowAndPage(rows, cursor, limit, p, k);
    assert pages == [p] + rest;
    TiedOffPrepend(rows, p, rest, k);
    if p.nextCursor.None? {
      assert rest == [];
    } else if k in Before(rows, p.nextCursor) {
      MissedIffTied(rows, p.nextCursor, limit, rest, k);
    } else {
      NotTiedLater(rows, p.nextCursor, limit, rest, k);
      TrailItems(rows, p.nextCursor, limit, rest);
    }
  }
}
