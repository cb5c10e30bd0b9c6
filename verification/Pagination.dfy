/**
 Walking a static table page by page through the list endpoints.  ORDER BY
 created_at says nothing about ties, so whether the pages add up to the matching
 rows depends on the timestamps, on where the page boundaries fall, and on the page
 size the server really uses.
 */
module Pagination {
  import opened Prelude
  import opened Queries

  /** `page` is an answer to one request over the matching rows `rows`. */
  ghost predicate Served(rows: seq<Row>, limit: nat, offset: nat, page: seq<Row>) {
    exists order :: Ordering(order, rows) && page == Page(order, limit, offset)
  }

  /** Consecutive pages of `size` rows, each answered on its own. */
  ghost predicate Walk(rows: seq<Row>, size: nat, pages: seq<seq<Row>>) {
    forall k :: 0 <= k < |pages| ==> Served(rows, size, k * size, pages[k])
  }

  function Concat(pages: seq<seq<Row>>): seq<Row> {
    if pages == [] then [] else Concat(pages[..|pages| - 1]) + pages[|pages| - 1]
  }

  /** Every walk of `n` pages yields every matching row exactly as often as it occurs. */
  ghost predicate WalksComplete(rows: seq<Row>, size: nat, n: nat) {
    forall pages :: |pages| == n && Walk(rows, size, pages) ==> multiset(Concat(pages)) == multiset(rows)
  }

  /** `n` pages of `size` rows are enough for all of them. */
  ghost predicate EnoughPages(rows: seq<Row>, size: nat, n: nat) {
    size >= 1 && n * size >= |rows|
  }

  /** Two different rows of `order` with the same timestamp always fall on the same page. */
  ghost predicate NoTieSplit(order: seq<Row>, size: nat)
    requires size >= 1
  {
    forall i, j :: 0 <= i < j < |order| && order[i].CreatedAt() == order[j].CreatedAt() && order[i] != order[j] ==>
      i / size == j / size
  }

  /** So it is when `rows` are listed newest first. */
  ghost predicate TiesInsidePages(rows: seq<Row>, size: nat) {
    size >= 1 && NoTieSplit(Sort(rows), size)
  }

  /** Rows with the same timestamp are the same row. */
  ghost predicate DistinctTimes(rows: seq<Row>) {
    forall x, y :: x in rows && y in rows && x.CreatedAt() == y.CreatedAt() ==> x == y
  }

  lemma InMultiset(a: seq<Row>, b: seq<Row>, x: Row)
    requires multiset(a) == multiset(b)
    ensures x in a <==> x in b
  {
    assert x in multiset(a) <==> x in a;
    assert x in multiset(b) <==> x in b;
  }

  lemma SameLength(a: seq<Row>, b: seq<Row>)
    requires multiset(a) == multiset(b)
    ensures |a| == |b|
  {
    assert |a| == |multiset(a)| == |multiset(b)| == |b|;
  }

  // ---------------------------------------------------------------- An ordering exists

  function InsertRow(order: seq<Row>, x: Row): seq<Row> {
    if order == [] then [x]
    else if x.CreatedAt() >= order[0].CreatedAt() then [x] + order
    else [order[0]] + InsertRow(order[1..], x)
  }

  function Sort(rows: seq<Row>): seq<Row> {
    if rows == [] then [] else InsertRow(Sort(rows[1..]), rows[0])
  }

  lemma DescendingCons(x: Row, tail: seq<Row>)
    requires Descending(tail)
    requires forall y :: y in tail ==> x.CreatedAt() >= y.CreatedAt()
    ensures Descending([x] + tail)
  {
  }

  lemma HeadIsNewest(order: seq<Row>, y: Row)
    requires order != [] && Descending(order) && y in order
    ensures order[0].CreatedAt() >= y.CreatedAt()
  {
  }

  lemma {:induction false} InsertRowSame(order: seq<Row>, x: Row)
    ensures multiset(InsertRow(order, x)) == multiset(order) + multiset{x}
  {
    if order != [] && x.CreatedAt() < order[0].CreatedAt() {
      InsertRowSame(order[1..], x);
      assert order == [order[0]] + order[1..];
    }
  }

  lemma InsertedRows(order: seq<Row>, x: Row, y: Row)
    requires y in InsertRow(order, x)
    ensures y == x || y in order
  {
    InsertRowSame(order, x);
    assert y in multiset(InsertRow(order, x));
  }

  lemma {:induction false} InsertRowDescends(order: seq<Row>, x: Row)
    requires Descending(order)
    ensures Descending(InsertRow(order, x))
  {
    if order == [] {
    } else if x.CreatedAt() >= order[0].CreatedAt() {
      forall y | y in order ensures x.CreatedAt() >= y.CreatedAt() {
        HeadIsNewest(order, y);
      }
      DescendingCons(x, order);
    } else {
      DescendingTail(order);
      InsertRowDescends(order[1..], x);
      forall y | y in InsertRow(order[1..], x) ensures order[0].CreatedAt() >= y.CreatedAt() {
        InsertedRows(order[1..], x, y);
      }
      DescendingCons(order[0], InsertRow(order[1..], x));
    }
  }

  lemma {:induction false} SortIsOrdering(rows: seq<Row>)
    ensures Ordering(Sort(rows), rows)
  {
    if rows != [] {
      SortIsOrdering(rows[1..]);
      InsertRowSame(Sort(rows[1..]), rows[0]);
      InsertRowDescends(Sort(rows[1..]), rows[0]);
      assert rows == [rows[0]] + rows[1..];
    }
  }

  lemma DescendingTail(a: seq<Row>)
    requires a != [] && Descending(a)
    ensures Descending(a[1..])
  {
  }

  // ---------------------------------------------------------------- No tie across a boundary: complete

  /** No two different rows with the same timestamp stand on either side of position `c`. */
  ghost predicate CleanCut(order: seq<Row>, c: nat) {
    forall i, j :: 0 <= i < c <= j < |order| && order[i].CreatedAt() == order[j].CreatedAt() ==> order[i] == order[j]
  }

  /** Two collections of one size that differ have a row that is more often in the first. */
  lemma Surplus(a: multiset<Row>, b: multiset<Row>) returns (x: Row)
    requires |a| == |b| && a != b
    ensures a[x] > b[x]
  {
    if a <= b {
      NothingMissing(a, b);
    }
    x :| a[x] > b[x];
  }

  lemma NothingMissing(a: multiset<Row>, b: multiset<Row>)
    requires a <= b && |a| == |b|
    ensures a == b
  {
    assert b == a + (b - a);
  }

  /** A row more often in the front of `a` than in the front of `b` is in the back of `b`. */
  lemma SurplusIsBehind(a: seq<Row>, b: seq<Row>, c: nat, x: Row)
    requires multiset(a) == multiset(b) && c <= |a| && c <= |b|
    requires multiset(a[..c])[x] > multiset(b[..c])[x]
    ensures x in a[..c] && x in b[c..]
  {
    assert a == a[..c] + a[c..] && b == b[..c] + b[c..];
    assert multiset(b)[x] == multiset(b[..c])[x] + multiset(b[c..])[x];
    assert multiset(a)[x] == multiset(a[..c])[x] + multiset(a[c..])[x];
    assert x in multiset(a[..c]) && x in multiset(b[c..]);
  }

  lemma FrontIsNewer(a: seq<Row>, c: nat, x: Row, y: Row)
    requires Descending(a) && c <= |a| && x in a[..c] && y in a[c..]
    ensures x.CreatedAt() >= y.CreatedAt()
  {
  }

  /** If another ordering has other rows before `c`, then a tie of different rows spans `c`. */
  lemma TieAcrossCut(a: seq<Row>, order: seq<Row>, c: nat) returns (i: nat, j: nat)
    requires multiset(a) == multiset(order) && Descending(a) && Descending(order)
    requires |a| == |order| && c <= |order| && multiset(a[..c]) != multiset(order[..c])
    ensures i < c <= j < |order| && order[i].CreatedAt() == order[j].CreatedAt() && order[i] != order[j]
  {
    var x := Surplus(multiset(a[..c]), multiset(order[..c]));
    var y := Surplus(multiset(order[..c]), multiset(a[..c]));
    SurplusIsBehind(a, order, c, x);
    SurplusIsBehind(order, a, c, y);
    FrontIsNewer(a, c, x, y);
    FrontIsNewer(order, c, y, x);
    i :| 0 <= i < c && order[i] == y;
    var k :| 0 <= k < |order| - c && order[c..][k] == x;
    j := c + k;
  }

  /** Any two orderings have the same rows before a clean cut. */
  lemma CutAgrees(a: seq<Row>, order: seq<Row>, c: nat)
    requires multiset(a) == multiset(order) && Descending(a) && Descending(order)
    requires c <= |order| && CleanCut(order, c)
    ensures |a| == |order| && multiset(a[..c]) == multiset(order[..c])
  {
    SameLength(a, order);
    if multiset(a[..c]) != multiset(order[..c]) {
      var i, j := TieAcrossCut(a, order, c);
    }
  }

  function Least(a: nat, b: nat): nat { if a <= b then a else b }

  lemma PageExtends(order: seq<Row>, size: nat, offset: nat)
    ensures order[..Least(offset, |order|)] + Page(order, size, offset) == order[..Least(offset + size, |order|)]
  {
  }

  lemma Successor(n: nat, size: nat)
    ensures (n + 1) * size == n * size + size
  {
  }

  lemma BoundaryIsCleanCut(rows: seq<Row>, size: nat, k: nat)
    requires TiesInsidePages(rows, size)
    ensures CleanCut(Sort(rows), k * size)
  {
    var order := Sort(rows);
    forall i, j | 0 <= i < k * size <= j < |order| && order[i].CreatedAt() == order[j].CreatedAt()
      ensures order[i] == order[j]
    {
      PageIndex(i, size, k);
      PageIndex(j, size, k);
    }
  }

  lemma PageIndex(m: nat, size: nat, k: nat)
    requires size >= 1
    ensures m / size < k <==> m < k * size
  {
    var q := m / size;
    assert m == q * size + m % size;
    if q < k {
      Monotone(q + 1, k, size);
      Successor(q, size);
    } else {
      Monotone(k, q, size);
    }
  }

  lemma Monotone(a: nat, b: nat, c: nat)
    requires a <= b
    ensures a * c <= b * c
  {
    assert (b - a) * c >= 0;
  }

  /** One page of any ordering holds the same rows as that page of `order`. */
  lemma PageAgrees(rows: seq<Row>, size: nat, k: nat, page: seq<Row>)
    requires TiesInsidePages(rows, size) && Served(rows, size, k * size, page)
    ensures multiset(page) == multiset(Page(Sort(rows), size, k * size))
  {
    SortIsOrdering(rows);
    var a :| Ordering(a, rows) && page == Page(a, size, k * size);
    BoundaryIsCleanCut(rows, size, k);
    BoundaryIsCleanCut(rows, size, k + 1);
    Successor(k, size);
    CleanPageAgrees(a, Sort(rows), size, k * size);
  }

  lemma CleanPageAgrees(a: seq<Row>, order: seq<Row>, size: nat, offset: nat)
    requires multiset(a) == multiset(order) && Descending(a) && Descending(order)
    requires CleanCut(order, offset) && CleanCut(order, offset + size)
    ensures multiset(Page(a, size, offset)) == multiset(Page(order, size, offset))
  {
    SameLength(a, order);
    var c, d := Least(offset, |a|), Least(offset + size, |a|);
    CutAgrees(a, order, c);
    CutAgrees(a, order, d);
    PageExtends(a, size, offset);
    PageExtends(order, size, offset);
    CancelFront(a[..c], Page(a, size, offset), order[..c], Page(order, size, offset));
  }

  lemma CancelFront(a: seq<Row>, b: seq<Row>, a': seq<Row>, b': seq<Row>)
    requires multiset(a) == multiset(a') && multiset(a + b) == multiset(a' + b')
    ensures multiset(b) == multiset(b')
  {
    assert multiset(a + b) - multiset(a) == multiset(b);
    assert multiset(a' + b') - multiset(a') == multiset(b');
  }

  lemma {:induction false} WalkIsPrefix(rows: seq<Row>, size: nat, pages: seq<seq<Row>>)
    requires TiesInsidePages(rows, size) && Walk(rows, size, pages)
    ensures multiset(Concat(pages)) == multiset(Sort(rows)[..Least(|pages| * size, |Sort(rows)|)])
  {
    if pages != [] {
      var n := |pages| - 1;
      forall k | 0 <= k < n ensures Served(rows, size, k * size, pages[..n][k]) {
        assert pages[..n][k] == pages[k];
      }
      WalkIsPrefix(rows, size, pages[..n]);
      PageAgrees(rows, size, n, pages[n]);
      OnePageMore(Sort(rows), size, n, Concat(pages[..n]), pages[n]);
    }
  }

  lemma OnePageMore(order: seq<Row>, size: nat, n: nat, front: seq<Row>, page: seq<Row>)
    requires multiset(front) == multiset(order[..Least(n * size, |order|)])
    requires multiset(page) == multiset(Page(order, size, n * size))
    ensures multiset(front + page) == multiset(order[..Least((n + 1) * size, |order|)])
  {
    PageExtends(order, size, n * size);
    Successor(n, size);
  }

  lemma TiesInsideComplete(rows: seq<Row>, size: nat, n: nat)
    requires EnoughPages(rows, size, n) && TiesInsidePages(rows, size)
    ensures WalksComplete(rows, size, n)
  {
    forall pages | |pages| == n && Walk(rows, size, pages) ensures multiset(Concat(pages)) == multiset(rows) {
      var order := Sort(rows);
      SortIsOrdering(rows);
      SameLength(order, rows);
      WalkIsPrefix(rows, size, pages);
      assert order[..|order|] == order;
    }
  }

  // ---------------------------------------------------------------- A tie across a boundary: some walk repeats a row

  lemma SwapTie(order: seq<Row>, rows: seq<Row>, i: nat, j: nat) returns (swapped: seq<Row>)
    requires Ordering(order, rows) && i < |order| && j < |order| && i != j
    requires order[i].CreatedAt() == order[j].CreatedAt()
    ensures Ordering(swapped, rows) && |swapped| == |order|
    ensures swapped[j] == order[i] && forall m :: 0 <= m < |order| && m != i && m != j ==> swapped[m] == order[m]
  {
    swapped := order[i := order[j]][j := order[i]];
  }

  /** The first `n` pages cut from one sequence. */
  function Pages(order: seq<Row>, size: nat, n: nat): (pages: seq<seq<Row>>)
    ensures |pages| == n
  {
    if n == 0 then [] else Pages(order, size, n - 1) + [Page(order, size, (n - 1) * size)]
  }

  lemma {:induction false} ConcatPages(order: seq<Row>, size: nat, n: nat)
    ensures Concat(Pages(order, size, n)) == order[..Least(n * size, |order|)]
    ensures forall k :: 0 <= k < n ==> Pages(order, size, n)[k] == Page(order, size, k * size)
  {
    if n > 0 {
      ConcatPages(order, size, n - 1);
      PageExtends(order, size, (n - 1) * size);
      Successor(n - 1, size);
      assert Pages(order, size, n)[..n - 1] == Pages(order, size, n - 1);
    }
  }

  /** A page depends only on the rows that fall on it. */
  lemma SamePage(a: seq<Row>, b: seq<Row>, size: nat, k: nat)
    requires size >= 1 && |a| == |b|
    requires forall m :: 0 <= m < |a| && m / size == k ==> a[m] == b[m]
    ensures Page(a, size, k * size) == Page(b, size, k * size)
  {
    forall m | k * size <= m < k * size + size && m < |a| ensures a[m] == b[m] {
      Successor(k, size);
      PageIndex(m, size, k);
      PageIndex(m, size, k + 1);
    }
  }

  /** Page `p` cut from the ordering `b` and the other pages from the ordering `a` make a walk. */
  lemma MixedWalk(a: seq<Row>, b: seq<Row>, mix: seq<Row>, rows: seq<Row>, size: nat, n: nat, p: nat)
    requires size >= 1 && Ordering(a, rows) && Ordering(b, rows) && |a| == |b| == |mix|
    requires forall m :: 0 <= m < |mix| ==> mix[m] == if m / size == p then b[m] else a[m]
    ensures Walk(rows, size, Pages(mix, size, n))
  {
    ConcatPages(mix, size, n);
    forall k | 0 <= k < n ensures Served(rows, size, k * size, Pages(mix, size, n)[k]) {
      SamePage(if k == p then b else a, mix, size, k);
    }
  }

  lemma TieWalk(order: seq<Row>, rows: seq<Row>, size: nat, n: nat, i: nat, j: nat)
    requires size >= 1 && Ordering(order, rows)
    requires i < |order| && j < |order| && i / size != j / size
    requires order[i].CreatedAt() == order[j].CreatedAt()
    ensures Walk(rows, size, Pages(order[j := order[i]], size, n))
  {
    var swapped := SwapTie(order, rows, i, j);
    MixedWalk(order, swapped, order[j := order[i]], rows, size, n, j / size);
  }

  /** Pages answered from two arrangements of a tie repeat one of its rows and miss the other. */
  lemma RepeatingWalk(order: seq<Row>, rows: seq<Row>, size: nat, n: nat, i: nat, j: nat)
    requires size >= 1 && Ordering(order, rows) && n * size >= |order|
    requires i < |order| && j < |order| && i / size != j / size
    requires order[i].CreatedAt() == order[j].CreatedAt() && order[i] != order[j]
    ensures !WalksComplete(rows, size, n)
  {
    var repeated := order[j := order[i]];
    TieWalk(order, rows, size, n, i, j);
    ConcatPages(repeated, size, n);
    assert repeated[..|repeated|] == repeated;
    RepeatedRow(order, j, order[i]);
  }

  lemma TieBreaksWalks(rows: seq<Row>, size: nat, n: nat)
    requires EnoughPages(rows, size, n) && !TiesInsidePages(rows, size)
    ensures !WalksComplete(rows, size, n)
  {
    var order := Sort(rows);
    SortIsOrdering(rows);
    SameLength(order, rows);
    var i, j :| 0 <= i < j < |order| && order[i].CreatedAt() == order[j].CreatedAt() &&
      order[i] != order[j] && i / size != j / size;
    RepeatingWalk(order, rows, size, n, i, j);
  }

  lemma RepeatedRow(order: seq<Row>, j: nat, x: Row)
    requires j < |order| && order[j] != x
    ensures multiset(order[j := x]) != multiset(order)
  {
    assert multiset(order[j := x]) == multiset(order) - multiset{order[j]} + multiset{x};
    assert multiset(order[j := x])[x] == multiset(order)[x] + 1;
  }

  // ---------------------------------------------------------------- Exactly when

  /**
   For each page size: pages enough to hold the matching rows yield each of them
   exactly once, whatever order the ties come in, if and only if no two different rows
   with one timestamp fall on different pages.
   */
  lemma PagesCompleteExactlyWhen(rows: seq<Row>, size: nat, n: nat)
    requires EnoughPages(rows, size, n)
    ensures WalksComplete(rows, size, n) <==> TiesInsidePages(rows, size)
  {
    if TiesInsidePages(rows, size) {
      TiesInsideComplete(rows, size, n);
    } else {
      TieBreaksWalks(rows, size, n);
    }
  }

  lemma SortedSameRows(rows: seq<Row>)
    ensures forall x :: x in Sort(rows) <==> x in rows
  {
    SortIsOrdering(rows);
    forall x ensures x in Sort(rows) <==> x in rows {
      InMultiset(Sort(rows), rows, x);
    }
  }

  /** One-row pages leave no room for a tie. */
  lemma OneRowPages(rows: seq<Row>)
    ensures TiesInsidePages(rows, 1) ==> DistinctTimes(rows)
  {
    var order := Sort(rows);
    SortedSameRows(rows);
    forall x, y | TiesInsidePages(rows, 1) && x in rows && y in rows && x.CreatedAt() == y.CreatedAt()
      ensures x == y
    {
      var i :| 0 <= i < |order| && order[i] == x;
      var j :| 0 <= j < |order| && order[j] == y;
      assert i / 1 == i && j / 1 == j;
    }
  }

  lemma DistinctTimesInside(rows: seq<Row>, size: nat)
    requires size >= 1 && DistinctTimes(rows)
    ensures TiesInsidePages(rows, size)
  {
    SortedSameRows(rows);
  }

  ghost predicate AlwaysComplete(rows: seq<Row>) {
    forall size: nat, n: nat :: EnoughPages(rows, size, n) ==> WalksComplete(rows, size, n)
  }

  /** For every page size at once: if and only if no two different rows share a timestamp. */
  lemma AllSizesCompleteExactlyWhen(rows: seq<Row>)
    ensures AlwaysComplete(rows) <==> DistinctTimes(rows)
  {
    if DistinctTimes(rows) {
      forall size: nat, n: nat | EnoughPages(rows, size, n) ensures WalksComplete(rows, size, n) {
        DistinctTimesInside(rows, size);
        PagesCompleteExactlyWhen(rows, size, n);
      }
    } else {
      OneRowPages(rows);
      assert EnoughPages(rows, 1, |rows|);
      PagesCompleteExactlyWhen(rows, 1, |rows|);
    }
  }

  lemma DistinctCut(b: seq<Row>, rows: seq<Row>, c: nat)
    requires Ordering(b, rows) && DistinctTimes(rows)
    ensures CleanCut(b, c)
  {
    forall x | x in b ensures x in rows {
      InMultiset(b, rows, x);
    }
  }

  lemma SameAt(a: seq<Row>, b: seq<Row>, c: nat)
    requires c < |a| && c < |b|
    requires multiset(a[..c]) == multiset(b[..c]) && multiset(a[..c + 1]) == multiset(b[..c + 1])
    ensures a[c] == b[c]
  {
    assert a[..c + 1] == a[..c] + [a[c]] && b[..c + 1] == b[..c] + [b[c]];
    CancelFront(a[..c], [a[c]], b[..c], [b[c]]);
    InMultiset([a[c]], [b[c]], a[c]);
  }

  /** With distinct timestamps there is one ordering, so one answer to each request. */
  lemma OrderingUnique(a: seq<Row>, b: seq<Row>, rows: seq<Row>)
    requires Ordering(a, rows) && Ordering(b, rows) && DistinctTimes(rows)
    ensures a == b
  {
    SameLength(a, b);
    forall c | 0 <= c < |a| ensures a[c] == b[c] {
      DistinctCut(b, rows, c);
      DistinctCut(b, rows, c + 1);
      CutAgrees(a, b, c);
      CutAgrees(a, b, c + 1);
      SameAt(a, b, c);
    }
  }

  // ---------------------------------------------------------------- From filter to pages

  /** What a list function sends for one page. */
  datatype Sent = Sent(query: Query, args: seq<Value>)

  /** One answer to each of the queries, all on the same table. */
  ghost predicate AllAnswered(sent: seq<Sent>, table: seq<Row>, pages: seq<seq<Row>>) {
    |pages| == |sent| && forall k :: 0 <= k < |sent| ==> Answers(sent[k].query, sent[k].args, table, pages[k])
  }

  /** Whatever the database answers, the pages add up to `rows`, each row as often as it occurs. */
  ghost predicate AddUp(sent: seq<Sent>, table: seq<Row>, rows: seq<Row>) {
    forall pages :: AllAnswered(sent, table, pages) ==> multiset(Concat(pages)) == multiset(rows)
  }

  /** Queries for consecutive pages of the rows that meet `wanted`. */
  ghost predicate AskForPages(sent: seq<Sent>, table: seq<Row>, wanted: Row -> bool, size: nat) {
    forall k :: 0 <= k < |sent| ==> Means(sent[k], table, wanted, size, k * size)
  }

  ghost predicate Means(sent: Sent, table: seq<Row>, wanted: Row -> bool, limit: int, offset: int) {
    && (forall i :: 0 <= i < |table| ==> (Selects(sent.query, sent.args, table[i]) <==> wanted(table[i])))
    && Arg(sent.args, sent.query.limitPh) == Some(OfInt(limit))
    && Arg(sent.args, sent.query.offsetPh) == Some(OfInt(offset))
  }

  lemma AnswerIsServed(sent: Sent, table: seq<Row>, wanted: Row -> bool, limit: nat, offset: nat, page: seq<Row>)
    requires Means(sent, table, wanted, limit, offset)
    ensures Answers(sent.query, sent.args, table, page) <==> Served(Wanted(table, wanted), limit, offset, page)
  {
    QueryMeansListing(sent.query, sent.args, table, wanted, limit, offset, page);
  }

  /** They are answered by exactly the walks over those rows. */
  lemma AnsweredIsWalk(sent: seq<Sent>, table: seq<Row>, wanted: Row -> bool, size: nat, pages: seq<seq<Row>>)
    requires AskForPages(sent, table, wanted, size)
    ensures AllAnswered(sent, table, pages) <==> |pages| == |sent| && Walk(Wanted(table, wanted), size, pages)
  {
    if |pages| == |sent| {
      forall k | 0 <= k < |sent|
        ensures Answers(sent[k].query, sent[k].args, table, pages[k]) <==>
                Served(Wanted(table, wanted), size, k * size, pages[k])
      {
        assert Means(sent[k], table, wanted, size, k * size);
        AnswerIsServed(sent[k], table, wanted, size, k * size, pages[k]);
      }
    }
  }

  lemma QueriesAddUp(sent: seq<Sent>, table: seq<Row>, wanted: Row -> bool, size: nat)
    requires AskForPages(sent, table, wanted, size)
    requires EnoughPages(Wanted(table, wanted), size, |sent|)
    ensures AddUp(sent, table, Wanted(table, wanted)) <==> TiesInsidePages(Wanted(table, wanted), size)
  {
    var rows := Wanted(table, wanted);
    forall pages ensures AllAnswered(sent, table, pages) <==> |pages| == |sent| && Walk(rows, size, pages) {
      AnsweredIsWalk(sent, table, wanted, size, pages);
    }
    PagesCompleteExactlyWhen(rows, size, |sent|);
  }

  /** What ListTasks builds from `f` when asked for consecutive pages. */
  ghost predicate SentForTasks(f: TaskFilter, size: nat, sent: seq<Sent>) {
    forall k :: 0 <= k < |sent| ==>
      IsTaskQuery(f.(limit := size, offset := k * size), sent[k].query, sent[k].args)
  }

  /** What ListEvents builds. */
  ghost predicate SentForEvents(f: EventFilter, size: nat, sent: seq<Sent>) {
    forall k :: 0 <= k < |sent| ==>
      IsEventQuery(f.(limit := size, offset := k * size), sent[k].query, sent[k].args)
  }

  /**
   From the filter to the rows: the queries that ListTasks builds for consecutive pages
   yield every wanted task exactly once, whatever the database answers, if and only if
   no two different wanted tasks with one timestamp fall on different pages.
   */
  lemma TaskPagesExactlyWhen(f: TaskFilter, table: seq<Row>, size: nat, sent: seq<Sent>)
    requires TaskTable(table)
    requires SentForTasks(f, size, sent)
    requires EnoughPages(Wanted(table, TaskTest(f)), size, |sent|)
    ensures AddUp(sent, table, Wanted(table, TaskTest(f))) <==> TiesInsidePages(Wanted(table, TaskTest(f)), size)
  {
    QueriesAddUp(sent, table, TaskTest(f), size);
  }

  /** Likewise for ListEvents. */
  lemma EventPagesExactlyWhen(f: EventFilter, table: seq<Row>, size: nat, sent: seq<Sent>)
    requires EventTable(table)
    requires SentForEvents(f, size, sent)
    requires EnoughPages(Wanted(table, EventTest(f)), size, |sent|)
    ensures AddUp(sent, table, Wanted(table, EventTest(f))) <==> TiesInsidePages(Wanted(table, EventTest(f)), size)
  {
    QueriesAddUp(sent, table, EventTest(f), size);
  }

  // ---------------------------------------------------------------- The size the server uses

  /** A client that asks for `limit` rows and advances by `limit`, while the server caps the page. */
  function ClientWalk(order: seq<Row>, limit: nat, n: nat): seq<Row> {
    if n == 0 then []
    else ClientWalk(order, limit, n - 1) + Page(order, ClampedLimit(Some(limit)), (n - 1) * limit)
  }

  lemma {:induction false} SmallLimitIsPrefix(order: seq<Row>, limit: nat, n: nat)
    requires 1 <= limit <= MAX_PAGE_SIZE
    ensures ClientWalk(order, limit, n) == order[..Least(n * limit, |order|)]
  {
    if n > 0 {
      SmallLimitIsPrefix(order, limit, n - 1);
      PageExtends(order, limit, (n - 1) * limit);
      assert n * limit == (n - 1) * limit + limit;
    }
  }

  lemma PageSize(order: seq<Row>, size: nat, offset: nat)
    ensures |Page(order, size, offset)| == Least(size, |order| - Least(offset, |order|))
  {
  }

  /** Beyond the cap every page after the first adds at most what the client skips over. */
  lemma {:induction false} LargeLimitLoses(order: seq<Row>, limit: nat, n: nat)
    requires limit > MAX_PAGE_SIZE && |order| > MAX_PAGE_SIZE && n >= 1
    ensures |ClientWalk(order, limit, n)| <= MAX_PAGE_SIZE + Least(n * limit, |order|) - Least(limit, |order|)
  {
    PageSize(order, MAX_PAGE_SIZE, (n - 1) * limit);
    if n == 1 {
      assert ClientWalk(order, limit, 0) == [];
    } else {
      LargeLimitLoses(order, limit, n - 1);
      assert n * limit == (n - 1) * limit + limit;
    }
  }

  /**
   A client that advances by the limit it asked for sees every row exactly when that
   limit is within the server's cap or the listing fits one capped page.
   */
  lemma ClientWalkCompleteExactlyWhen(order: seq<Row>, limit: nat, n: nat)
    requires limit >= 1 && n >= 1 && n * limit >= |order|
    ensures ClientWalk(order, limit, n) == order <==> limit <= MAX_PAGE_SIZE || |order| <= MAX_PAGE_SIZE
  {
    if limit <= MAX_PAGE_SIZE {
      SmallLimitIsPrefix(order, limit, n);
      assert order[..|order|] == order;
    } else if |order| <= MAX_PAGE_SIZE {
      ShortListingFits(order, limit, n);
    } else {
      LargeLimitLoses(order, limit, n);
    }
  }

  lemma {:induction false} ShortListingFits(order: seq<Row>, limit: nat, n: nat)
    requires |order| <= MAX_PAGE_SIZE < limit && n >= 1
    ensures ClientWalk(order, limit, n) == order
  {
    if n == 1 {
      assert ClientWalk(order, limit, 0) == [];
      assert Page(order, MAX_PAGE_SIZE, 0) == order;
    } else {
      ShortListingFits(order, limit, n - 1);
      assert (n - 1) * limit >= limit;
      assert Page(order, MAX_PAGE_SIZE, (n - 1) * limit) == [];
    }
  }
}
