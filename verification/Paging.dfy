/** Category listing in pages (catalog/productdao/postgres.go). */
module Paging {

  datatype Category = Category(id: nat, sortOrder: int, name: string)

  method NormalizePagination(page: int, pageSize: int) returns (p: int, size: int)
    ensures (p, size) == Clamped(page, pageSize)
    ensures p >= 1 && 1 <= size <= 100
    ensures page >= 1 ==> p == page
    ensures 1 <= pageSize <= 100 ==> size == pageSize
  {
    p, size := page, pageSize;
    if p <= 0 {
      p := 1;
    }
    if size <= 0 {
      size := 20;
    }
    if size > 100 {
      size := 100;
    }
  }

  function Clamped(page: int, pageSize: int): (int, int) {
    (if page <= 0 then 1 else page, if pageSize <= 0 then 20 else if pageSize > 100 then 100 else pageSize)
  }

  /** ORDER BY sort_order, id. */
  predicate Before(a: Category, b: Category) {
    a.sortOrder < b.sortOrder || (a.sortOrder == b.sortOrder && a.id < b.id)
  }

  /** The rows a WHERE clause keeps. */
  function Filter(rows: seq<Category>, keep: Category -> bool): seq<Category> {
    if rows == [] then []
    else (if keep(rows[0]) then [rows[0]] else []) + Filter(rows[1..], keep)
  }

  function Insert(c: Category, sorted: seq<Category>): seq<Category> {
    if sorted == [] || Before(c, sorted[0]) then [c] + sorted else [sorted[0]] + Insert(c, sorted[1..])
  }

  function OrderBy(rows: seq<Category>): seq<Category> {
    if rows == [] then [] else Insert(rows[0], OrderBy(rows[1..]))
  }

  function Min(a: int, b: int): int { if a < b then a else b }

  /** OFFSET (page - 1) * size LIMIT size of the filtered and ordered rows, with their total number. */
  function ListCategories(rows: seq<Category>, keep: Category -> bool, page: int, pageSize: int): (seq<Category>, nat) {
    var all := OrderBy(Filter(rows, keep));
    var (p, size) := Clamped(page, pageSize);
    OffsetGrows(p, size);
    var from := Min((p - 1) * size, |all|);
    (all[from..Min(from + size, |all|)], |Filter(rows, keep)|)
  }

  lemma OffsetGrows(p: int, size: int)
    requires p >= 1 && size >= 1
    ensures (p - 1) * size >= 0 && (p - 1) * size + size == p * size
  {
  }

  // ---- The order ----

  ghost predicate Ordered(s: seq<Category>) {
    forall i, j :: 0 <= i < j < |s| ==> Before(s[i], s[j])
  }

  /** The primary key: no two rows share an id. */
  ghost predicate DistinctIDs(rows: seq<Category>) {
    forall i, j :: 0 <= i < j < |rows| ==> rows[i].id != rows[j].id
  }

  lemma {:induction false} InsertOrdered(c: Category, s: seq<Category>)
    requires Ordered(s) && forall i :: 0 <= i < |s| ==> s[i].id != c.id
    ensures Ordered(Insert(c, s)) && multiset(Insert(c, s)) == multiset{c} + multiset(s)
  {
    if s != [] && !Before(c, s[0]) {
      InsertOrdered(c, s[1..]);
      var rest := Insert(c, s[1..]);
      assert s == [s[0]] + s[1..];
      forall j | 0 <= j < |rest| ensures Before(s[0], rest[j]) {
        assert rest[j] in multiset(rest);
        if rest[j] != c {
          assert rest[j] in multiset(s[1..]);
          var k :| 0 <= k < |s[1..]| && s[1..][k] == rest[j];
          assert s[k + 1] == rest[j];
        }
      }
    }
  }

  /** ORDER BY yields the same rows, each as often, in strictly increasing order. */
  lemma {:induction false} OrderByOrders(rows: seq<Category>)
    requires DistinctIDs(rows)
    ensures Ordered(OrderBy(rows)) && multiset(OrderBy(rows)) == multiset(rows)
  {
    if rows != [] {
      OrderByOrders(rows[1..]);
      var sorted := OrderBy(rows[1..]);
      forall i | 0 <= i < |sorted| ensures sorted[i].id != rows[0].id {
        assert sorted[i] in multiset(sorted);
        assert sorted[i] in multiset(rows[1..]);
        var k :| 0 <= k < |rows[1..]| && rows[1..][k] == sorted[i];
        assert rows[k + 1] == sorted[i];
      }
      InsertOrdered(rows[0], sorted);
      assert rows == [rows[0]] + rows[1..];
    }
  }

  lemma {:induction false} FilterKeeps(rows: seq<Category>, keep: Category -> bool)
    ensures forall c :: c in Filter(rows, keep) <==> c in rows && keep(c)
    ensures DistinctIDs(rows) ==> DistinctIDs(Filter(rows, keep))
  {
    if rows != [] {
      FilterKeeps(rows[1..], keep);
      var rest := Filter(rows[1..], keep);
      if DistinctIDs(rows) {
        forall i | 0 <= i < |rest| ensures rest[i].id != rows[0].id {
          assert rest[i] in rows[1..];
          var k :| 0 <= k < |rows[1..]| && rows[1..][k] == rest[i];
          assert rows[k + 1] == rest[i];
        }
      }
    }
  }

  // ---- The pages ----

  /** Pages 1 to n, one after the other. */
  function Pages(rows: seq<Category>, keep: Category -> bool, n: nat, pageSize: int): seq<Category> {
    if n == 0 then [] else Pages(rows, keep, n - 1, pageSize) + ListCategories(rows, keep, n, pageSize).0
  }

  lemma {:induction false} PagesArePrefix(rows: seq<Category>, keep: Category -> bool, n: nat, pageSize: int)
    ensures
      var all := OrderBy(Filter(rows, keep));
      var size := Clamped(n, pageSize).1;
      n * size >= 0 && Pages(rows, keep, n, pageSize) == all[..Min(n * size, |all|)]
  {
    hide Filter, OrderBy;
    var all := OrderBy(Filter(rows, keep));
    var size := Clamped(n, pageSize).1;
    if n > 0 {
      PagesArePrefix(rows, keep, n - 1, pageSize);
      OffsetGrows(n, size);
      var from, to := Min((n - 1) * size, |all|), Min(n * size, |all|);
      assert ListCategories(rows, keep, n, pageSize).0 == all[from..to];
      assert all[..from] + all[from..to] == all[..to];
    }
  }

  /** The filtered rows in order: strictly increasing, and exactly the rows the filter keeps. */
  lemma OrderedFilter(rows: seq<Category>, keep: Category -> bool)
    requires DistinctIDs(rows)
    ensures
      var all := OrderBy(Filter(rows, keep));
      && Ordered(all) && (forall c :: c in all <==> c in rows && keep(c)) && |all| == |Filter(rows, keep)|
  {
    var kept := Filter(rows, keep);
    var all := OrderBy(kept);
    FilterKeeps(rows, keep);
    OrderByOrders(kept);
    assert |all| == |multiset(all)| == |multiset(kept)| == |kept|;
    forall c ensures c in all <==> c in kept {
      assert c in all <==> c in multiset(all);
      assert c in kept <==> c in multiset(kept);
    }
  }

  /** Every page reports the total, and a page that starts at or past it is empty. */
  lemma PagePastTheEnd(rows: seq<Category>, keep: Category -> bool, n: nat, pageSize: int)
    requires n * Clamped(n, pageSize).1 >= |OrderBy(Filter(rows, keep))|
    ensures ListCategories(rows, keep, n + 1, pageSize).0 == []
  {
    hide Filter, OrderBy;
    var size := Clamped(n, pageSize).1;
    assert Clamped(n + 1, pageSize) == (n + 1, size);
  }

  /**
    For every table, filter and requested size: as many pages as needed, put together, are the
    filtered rows in order, each exactly once; and every further page is empty.
    */
  lemma PagesCoverTheList(rows: seq<Category>, keep: Category -> bool, n: nat, pageSize: int)
    requires DistinctIDs(rows)
    requires n * Clamped(n, pageSize).1 >= ListCategories(rows, keep, n, pageSize).1
    ensures
      var all := Pages(rows, keep, n, pageSize);
      && Ordered(all) && (forall c :: c in all <==> c in rows && keep(c))
      && |all| == ListCategories(rows, keep, n, pageSize).1
    ensures ListCategories(rows, keep, n + 1, pageSize).0 == []
  {
    hide Filter, OrderBy, Pages, Clamped;
    OrderedFilter(rows, keep);
    PagesArePrefix(rows, keep, n, pageSize);
    PagePastTheEnd(rows, keep, n, pageSize);
  }
}
