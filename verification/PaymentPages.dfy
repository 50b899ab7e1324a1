/** A user's payments, a page at a time (payment.service.ts). */
module PaymentPages {

  /** `findMany` with skip and take: of the rows in their order, at most `take` from the one after the first `skip`. */
  function FindMany<T>(rows: seq<T>, skip: nat, take: nat): seq<T> {
    var rest := if skip <= |rows| then rows[skip..] else [];
    if take <= |rest| then rest[..take] else rest
  }

  /** Rounding a quotient of counts up. */
  function Ceil(total: nat, pageSize: nat): (pages: nat)
    requires pageSize >= 1
    ensures (pages - 1) * pageSize < total <= pages * pageSize || total == pages == 0
  {
    var pages := (total + pageSize - 1) / pageSize;
    assert total + pageSize - 1 == pages * pageSize + (total + pageSize - 1) % pageSize;
    pages
  }

  datatype Page<T> = Page(total: nat, payments: seq<T>, page: nat, pageSize: nat, totalPages: nat)

  function GetUserPayments<T>(rows: seq<T>, page: nat, pageSize: nat): Page<T>
    requires page >= 1 && pageSize >= 1
  {
    Page(|rows|, FindMany(rows, (page - 1) * pageSize, pageSize), page, pageSize, Ceil(|rows|, pageSize))
  }

  lemma {:induction false} FindManyLaw<T>(rows: seq<T>, skip: nat, take: nat)
    ensures var shown := FindMany(rows, skip, take);
            && |shown| == (if |rows| <= skip then 0 else if |rows| - skip < take then |rows| - skip else take)
            && forall i | 0 <= i < |shown| :: shown[i] == rows[skip + i]
  {
  }

  /** Page `page` shows the rows from the one after the pages before it, a full page unless the rows run out. */
  lemma {:induction false} PageLaw<T>(rows: seq<T>, page: nat, pageSize: nat, skip: nat)
    requires page >= 1 && pageSize >= 1 && skip == (page - 1) * pageSize
    ensures var answer := GetUserPayments(rows, page, pageSize);
            && answer.total == |rows| && answer.page == page && answer.pageSize == pageSize
            && |answer.payments|
               == (if |rows| <= skip then 0 else if |rows| - skip < pageSize then |rows| - skip else pageSize)
            && forall i | 0 <= i < |answer.payments| :: answer.payments[i] == rows[skip + i]
  {
    FindManyLaw(rows, skip, pageSize);
  }

  /** There are just as many pages as hold all rows. */
  lemma {:induction false} PagesLaw<T>(rows: seq<T>, page: nat, pageSize: nat)
    requires page >= 1 && pageSize >= 1
    ensures var pages := GetUserPayments(rows, page, pageSize).totalPages;
            |rows| <= pages * pageSize && (rows != [] ==> (pages - 1) * pageSize < |rows|)
    ensures rows == [] ==> GetUserPayments(rows, page, pageSize).totalPages == 0
  {
    var pages := Ceil(|rows|, pageSize);
  }

  /** Pages 1 to `n`, one after the other. */
  function Pages<T>(rows: seq<T>, pageSize: nat, n: nat): seq<T>
    requires pageSize >= 1
  {
    if n == 0 then [] else Pages(rows, pageSize, n - 1) + GetUserPayments(rows, n, pageSize).payments
  }

  lemma {:induction false} PagesArePrefix<T>(rows: seq<T>, pageSize: nat, n: nat)
    requires pageSize >= 1
    ensures Pages(rows, pageSize, n) == if n * pageSize <= |rows| then rows[..n * pageSize] else rows
  {
    if n > 0 {
      PagesArePrefix(rows, pageSize, n - 1);
      assert n * pageSize == (n - 1) * pageSize + pageSize;
    }
  }

  /** A page shows something exactly when rows are left after those it skips. */
  lemma {:induction false} PageShows<T>(rows: seq<T>, skip: nat, take: nat)
    requires take >= 1
    ensures FindMany(rows, skip, take) != [] <==> skip < |rows|
  {
  }

  lemma Times(a: nat, b: nat, c: nat)
    requires a <= b
    ensures a * c <= b * c
  {
    assert b * c == a * c + (b - a) * c;
  }

  /** The rows before page `page` are fewer than all exactly up to the last page. */
  lemma SkipsTooMany(total: nat, pageSize: nat, page: nat)
    requires pageSize >= 1 && page >= 1
    ensures (page - 1) * pageSize < total <==> page <= Ceil(total, pageSize)
  {
    var pages := Ceil(total, pageSize);
    if page <= pages {
      Times(page - 1, pages - 1, pageSize);
    } else {
      Times(pages, page - 1, pageSize);
    }
  }

  lemma {:induction false} EnoughPages<T>(rows: seq<T>, pageSize: nat, n: nat)
    requires pageSize >= 1 && n * pageSize >= |rows|
    ensures Pages(rows, pageSize, n) == rows
  {
    PagesArePrefix(rows, pageSize, n);
  }

  lemma {:induction false} PageEmpty<T>(rows: seq<T>, pageSize: nat, page: nat)
    requires pageSize >= 1 && page >= 1
    ensures GetUserPayments(rows, page, pageSize).payments == [] <==> page > Ceil(|rows|, pageSize)
  {
    var skip: nat := (page - 1) * pageSize;
    SkipsTooMany(|rows|, pageSize, page);
    PageShows(rows, skip, pageSize);
  }

  /** The pages up to `totalPages` hold every payment once, in order; none of them is empty, and every later one is. */
  lemma {:induction false} PagesCoverEverything<T>(rows: seq<T>, pageSize: nat, page: nat)
    requires pageSize >= 1 && page >= 1
    ensures var answer := GetUserPayments(rows, page, pageSize);
            && Pages(rows, pageSize, answer.totalPages) == rows
            && (answer.payments == [] <==> page > answer.totalPages)
  {
    PageEmpty(rows, pageSize, page);
    EnoughPages(rows, pageSize, Ceil(|rows|, pageSize));
  }

  // ---- Ties -----------------------------------------------------------------------------------------------

  /** A payment row, as far as the order of a listing is concerned. */
  datatype Row = Row(id: int, createdAt: int)

  /** What a query ordered by `createdAt`, latest first, may go through; rows of one time come in any order. */
  ghost predicate Listing(rows: seq<Row>, payments: set<Row>) {
    && multiset(rows) == multiset(payments)
    && forall i, j | 0 <= i < j < |rows| :: rows[i].createdAt >= rows[j].createdAt
  }

  ghost predicate DistinctTimes(payments: set<Row>) {
    forall a, b | a in payments && b in payments && a.createdAt == b.createdAt :: a == b
  }

  /** Pages 1 to `n` one after the other, each going through a listing of its own. */
  function Shown(listing: nat -> seq<Row>, pageSize: nat, n: nat): seq<Row>
    requires pageSize >= 1
  {
    if n == 0 then []
    else Shown(listing, pageSize, n - 1) + GetUserPayments(listing(n), n, pageSize).payments
  }

  /** Whatever listing each page is cut from, the pages show every payment once. */
  ghost predicate PagesComplete(payments: set<Row>) {
    forall listing: nat -> seq<Row>, pageSize: nat |
      pageSize >= 1 && (forall k :: Listing(listing(k), payments)) ::
      multiset(Shown(listing, pageSize, Ceil(|payments|, pageSize))) == multiset(payments)
  }

  lemma LatestFirst(rows: seq<Row>, payments: set<Row>)
    requires Listing(rows, payments) && rows != []
    ensures rows[0] in payments && forall p | p in payments :: p.createdAt <= rows[0].createdAt
    ensures Listing(rows[1..], payments - {rows[0]})
  {
    assert rows == [rows[0]] + rows[1..];
    assert rows[0] in multiset(payments);
    forall p | p in payments ensures p.createdAt <= rows[0].createdAt {
      assert p in multiset(rows);
      var i :| 0 <= i < |rows| && rows[i] == p;
    }
    assert multiset(rows[1..]) == multiset(rows) - multiset{rows[0]};
    assert multiset(payments - {rows[0]}) == multiset(payments) - multiset{rows[0]};
  }

  /** Without ties there is one listing. */
  lemma {:induction false} OneListing(a: seq<Row>, b: seq<Row>, payments: set<Row>)
    requires Listing(a, payments) && Listing(b, payments) && DistinctTimes(payments)
    ensures a == b
    decreases |a|
  {
    assert |a| == |multiset(payments)| == |b|;
    if a != [] {
      LatestFirst(a, payments);
      LatestFirst(b, payments);
      OneListing(a[1..], b[1..], payments - {a[0]});
      assert a == [a[0]] + a[1..] && b == [b[0]] + b[1..];
    }
  }

  lemma {:induction false} ShownOfOne(listing: nat -> seq<Row>, rows: seq<Row>, pageSize: nat, n: nat)
    requires pageSize >= 1 && forall k :: listing(k) == rows
    ensures Shown(listing, pageSize, n) == Pages(rows, pageSize, n)
  {
    if n > 0 { ShownOfOne(listing, rows, pageSize, n - 1); }
  }

  lemma {:induction false} CompleteWithoutTies(listing: nat -> seq<Row>, pageSize: nat, payments: set<Row>)
    requires pageSize >= 1 && DistinctTimes(payments) && forall k :: Listing(listing(k), payments)
    ensures multiset(Shown(listing, pageSize, Ceil(|payments|, pageSize))) == multiset(payments)
  {
    var rows := listing(0);
    forall k ensures listing(k) == rows { OneListing(listing(k), rows, payments); }
    assert |rows| == |multiset(payments)|;
    ShownOfOne(listing, rows, pageSize, Ceil(|payments|, pageSize));
    PagesCoverEverything(rows, pageSize, 1);
  }

  lemma {:induction false} ShownOneByOne(listing: nat -> seq<Row>, n: nat)
    requires forall k :: |listing(k)| >= n
    ensures |Shown(listing, 1, n)| == n
    ensures forall m | 0 <= m < n :: Shown(listing, 1, n)[m] == listing(m + 1)[m]
  {
    if n > 0 {
      ShownOneByOne(listing, n - 1);
      assert GetUserPayments(listing(n), n, 1).payments == [listing(n)[n - 1]];
    }
  }

  lemma TwiceCounted(rows: seq<Row>, i: nat, j: nat)
    requires i < j < |rows| && rows[i] == rows[j]
    ensures multiset(rows)[rows[i]] >= 2
  {
    assert rows == rows[..j] + rows[j..];
    assert rows[..j][i] == rows[i] && rows[j..][0] == rows[i];
    assert rows[i] in multiset(rows[..j]) && rows[i] in multiset(rows[j..]);
  }

  /** Two neighbours of one time may change places between one page and the next. */
  lemma SwapIsListing(rows: seq<Row>, k: nat, payments: set<Row>)
    requires Listing(rows, payments) && k + 1 < |rows| && rows[k].createdAt == rows[k + 1].createdAt
    ensures Listing(rows[k := rows[k + 1]][k + 1 := rows[k]], payments)
  {
  }

  lemma ListingLength(rows: seq<Row>, payments: set<Row>)
    requires Listing(rows, payments)
    ensures |rows| == |payments|
  {
    assert |rows| == |multiset(rows)|;
  }

  /** Whatever listing a page is cut from, it is empty just when it lies beyond the last page. */
  lemma {:induction false} EmptyJustBeyond(rows: seq<Row>, payments: set<Row>, pageSize: nat, page: nat)
    requires Listing(rows, payments) && pageSize >= 1 && page >= 1
    ensures GetUserPayments(rows, page, pageSize).totalPages == Ceil(|payments|, pageSize)
    ensures GetUserPayments(rows, page, pageSize).payments == [] <==> page > Ceil(|payments|, pageSize)
  {
    ListingLength(rows, payments);
    PageEmpty(rows, pageSize, page);
  }

  /** Pages of one row each: what page `k + 1` shows comes again on the next. */
  lemma {:induction false} ShownAgain(listing: nat -> seq<Row>, k: nat, payments: set<Row>)
    requires forall page :: Listing(listing(page), payments)
    requires forall page :: |listing(page)| == |payments|
    requires k + 1 < |payments| && listing(k + 1)[k] == listing(k + 2)[k + 1]
    ensures multiset(Shown(listing, 1, |payments|)) != multiset(payments)
  {
    ShownOneByOne(listing, |payments|);
    var shown := Shown(listing, 1, |payments|);
    TwiceCounted(shown, k, k + 1);
    assert multiset(payments)[shown[k]] <= 1;
  }

  lemma IncompleteBy(listing: nat -> seq<Row>, payments: set<Row>)
    requires forall page :: Listing(listing(page), payments)
    requires multiset(Shown(listing, 1, |payments|)) != multiset(payments)
    ensures !PagesComplete(payments)
  {
    assert Ceil(|payments|, 1) == |payments|;
  }

  lemma {:induction false} TiesRepeat(rows: seq<Row>, k: nat, payments: set<Row>)
    requires Listing(rows, payments) && k + 1 < |rows| && rows[k].createdAt == rows[k + 1].createdAt
    ensures !PagesComplete(payments)
  {
    var swapped := rows[k := rows[k + 1]][k + 1 := rows[k]];
    SwapIsListing(rows, k, payments);
    ListingLength(rows, payments);
    var listing: nat -> seq<Row> := (page: nat) => if page == k + 2 then swapped else rows;
    forall page ensures Listing(listing(page), payments) && |listing(page)| == |payments| {}
    ShownAgain(listing, k, payments);
    IncompleteBy(listing, payments);
  }

  /**
   * Every payment is shown once, whatever listing each page is cut from, if and only if no two payments of the user
   * have the same `createdAt`. `rows` is some listing of them.
   */
  lemma {:induction false} CompleteJustWithoutTies(payments: set<Row>, rows: seq<Row>)
    requires Listing(rows, payments)
    ensures PagesComplete(payments) <==> DistinctTimes(payments)
  {
    if DistinctTimes(payments) {
      forall listing: nat -> seq<Row>, pageSize: nat |
        pageSize >= 1 && (forall k :: Listing(listing(k), payments))
        ensures multiset(Shown(listing, pageSize, Ceil(|payments|, pageSize))) == multiset(payments)
      {
        CompleteWithoutTies(listing, pageSize, payments);
      }
    } else {
      var a, b :| a in payments && b in payments && a.createdAt == b.createdAt && a != b;
      assert a in multiset(rows) && b in multiset(rows);
      var i :| 0 <= i < |rows| && rows[i] == a;
      var j :| 0 <= j < |rows| && rows[j] == b;
      TiesRepeat(rows, if i < j then i else j, payments);
    }
  }
}
