/** The page arithmetic of the list routes: how many records to skip, how
    many pages there are, and the envelope flags. */
module Pagination {

  datatype PageInfo = PageInfo(
    total: nat,
    page: int,
    limit: int,
    totalPages: nat,
    hasNextPage: bool,
    hasPrevPage: bool)

  lemma MulMonotone(a: int, b: int, c: nat)
    requires a <= b
    ensures a * c <= b * c
  {
    assert b * c - a * c == (b - a) * c;
  }

  /** `(page - 1) * limit`: the records on the pages before this one. */
  function Skip(page: int, limit: int): (s: nat)
    requires page >= 1 && limit >= 1
  {
    MulMonotone(0, page - 1, limit);
    (page - 1) * limit
  }

  /** `Math.ceil(total / limit)` on integers: the fewest pages of `limit`
      records that hold them all. (The quotient of two integers this small is
      exact enough in floating point for the ceiling to agree.) */
  function TotalPages(total: nat, limit: int): (n: nat)
    requires limit >= 1
    ensures n * limit >= total
    ensures n > 0 ==> (n - 1) * limit < total
    ensures total == 0 <==> n == 0
  {
    var n := (total + limit - 1) / limit;
    var rem := (total + limit - 1) % limit;
    assert total + limit - 1 == n * limit + rem;
    assert (n - 1) * limit == n * limit - limit;
    n
  }

  /** The envelope both list routes return. */
  function Paginate(total: nat, page: int, limit: int): (info: PageInfo)
    requires page >= 1 && limit >= 1
    ensures info.total == total && info.page == page && info.limit == limit
    ensures info.totalPages == TotalPages(total, limit)
    ensures info.hasNextPage <==> page < info.totalPages
    ensures info.hasPrevPage <==> page > 1
  {
    var pages := TotalPages(total, limit);
    PageInfo(total, page, limit, pages, page < pages, page > 1)
  }

  /** There is a next page exactly when records remain after this one. */
  lemma HasNextPageIffMoreRecords(total: nat, page: int, limit: int)
    requires page >= 1 && limit >= 1
    ensures Paginate(total, page, limit).hasNextPage <==> Skip(page, limit) + limit < total
  {
    var n := TotalPages(total, limit);
    assert Skip(page, limit) + limit == page * limit;
    if page < n {
      MulMonotone(page, n - 1, limit);
    } else {
      MulMonotone(n, page, limit);
    }
  }

  /** `.skip(skip).limit(limit)` on the sorted result. */
  function PageOf<T>(xs: seq<T>, page: int, limit: int): (r: seq<T>)
    requires page >= 1 && limit >= 1
    ensures |r| <= limit
    ensures forall i :: 0 <= i < |r| ==> Skip(page, limit) + i < |xs| && r[i] == xs[Skip(page, limit) + i]
    ensures Skip(page, limit) + limit <= |xs| ==> |r| == limit
    ensures Skip(page, limit) >= |xs| <==> r == []
  {
    var s := Skip(page, limit);
    if s >= |xs| then [] else if s + limit <= |xs| then xs[s..s + limit] else xs[s..]
  }

  /** Every record is on exactly one page: record i is at position
      i % limit of page i / limit + 1, and that page exists. */
  lemma RecordOnItsPage<T>(xs: seq<T>, limit: int, i: int)
    requires limit >= 1 && 0 <= i < |xs|
    ensures i / limit + 1 <= TotalPages(|xs|, limit)
    ensures i % limit < |PageOf(xs, i / limit + 1, limit)|
    ensures PageOf(xs, i / limit + 1, limit)[i % limit] == xs[i]
  {
    var page := i / limit + 1;
    assert i == (i / limit) * limit + i % limit;
    assert Skip(page, limit) == i - i % limit;
    var n := TotalPages(|xs|, limit);
    if n < page {
      MulMonotone(n, page - 1, limit);
    }
  }

  /** Past the last page the data is empty and there is no next page. */
  lemma BeyondLastPage<T>(xs: seq<T>, page: int, limit: int)
    requires limit >= 1 && page > TotalPages(|xs|, limit)
    ensures PageOf(xs, page, limit) == []
    ensures !Paginate(|xs|, page, limit).hasNextPage
  {
    MulMonotone(TotalPages(|xs|, limit), page - 1, limit);
  }

  /** Twenty-five records, ten per page, page two: skip ten, three pages,
      both neighbours exist, and the page holds records 11 to 20. */
  lemma SecondPageOfTwentyFive<T>(xs: seq<T>)
    requires |xs| == 25
    ensures Skip(2, 10) == 10
    ensures Paginate(25, 2, 10) == PageInfo(25, 2, 10, 3, true, true)
    ensures PageOf(xs, 2, 10) == xs[10..20]
  {
    assert TotalPages(25, 10) == 3;
  }
}
