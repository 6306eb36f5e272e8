/** The paging shape shared by the repositories: clamped inputs, a page, and the links to its neighbours. */
module Paging {
  import opened Common

  /** `Number(query.page) || 1`, at least 1; a missing or unreadable number is None. */
  function ClampPage(page: Option<int>): (r: int)
    ensures r >= 1
  {
    if page.Some? && page.value > 1 then page.value else 1
  }

  /** `Number(query.limit) || 20`, between 1 and 100; 0 is falsy and falls back too. */
  function ClampLimit(limit: Option<int>): (r: int)
    ensures 1 <= r <= 100
  {
    if limit.None? || limit.value == 0 then 20
    else if limit.value < 1 then 1
    else if limit.value > 100 then 100
    else limit.value
  }

  function Skip(page: int, limit: int): int { (page - 1) * limit }

  /** skip/take: the rows of one page, in the query's order. */
  function PageRows<T>(rows: seq<T>, page: int, limit: int): seq<T>
    requires page >= 1 && limit >= 1
  {
    var lo := if Skip(page, limit) <= |rows| then Skip(page, limit) else |rows|;
    var hi := if lo + limit <= |rows| then lo + limit else |rows|;
    assert lo >= 0 by { MulMono(0, page - 1, limit); }
    rows[lo..hi]
  }

  /** nextPage as toPaged computes it. */
  function NextPage(total: nat, page: int, limit: int): Option<int> {
    if Skip(page, limit) + limit < total then Some(page + 1) else None
  }

  /** Math.ceil(total / limit). */
  function PageCount(total: nat, limit: int): int
    requires limit >= 1
  {
    (total + limit - 1) / limit
  }

  /** nextPage as the admin's notification activity computes it. */
  function NextPageByCount(total: nat, page: int, limit: int): Option<int>
    requires limit >= 1
  {
    if page < PageCount(total, limit) then Some(page + 1) else None
  }

  lemma MulMono(a: int, b: int, k: int)
    requires a <= b && k >= 0
    ensures a * k <= b * k
  {
    assert (b - a) * k >= 0;
  }

  lemma NextStart(page: int, limit: int)
    ensures Skip(page + 1, limit) == Skip(page, limit) + limit
  {
  }

  lemma PageCountBounds(total: nat, limit: int)
    requires limit >= 1
    ensures var q := PageCount(total, limit);
            q >= 0 && (q - 1) * limit < total + (if total == 0 then 1 else 0) && total <= q * limit
  {
    var q := PageCount(total, limit);
    assert q * limit <= total + limit - 1 < q * limit + limit;
    assert (q - 1) * limit == q * limit - limit;
    if total == 0 { assert q == 0; }
  }

  /** The two formulas for nextPage agree on every page, existing or not. */
  lemma NextPagesAgree(total: nat, page: int, limit: int)
    requires page >= 1 && limit >= 1
    ensures NextPage(total, page, limit) == NextPageByCount(total, page, limit)
  {
    PageCountBounds(total, limit);
    NextStart(page, limit);
    var q := PageCount(total, limit);
    if page < q {
      MulMono(page, q - 1, limit);
    } else {
      MulMono(q, page, limit);
    }
  }

  /** The pages met by following nextPage from `page`. */
  function Follow<T>(rows: seq<T>, page: int, limit: int): seq<seq<T>>
    requires page >= 1 && limit >= 1
    decreases if Skip(page, limit) + limit < |rows| then |rows| - Skip(page, limit) else 0
  {
    NextStart(page, limit);
    [PageRows(rows, page, limit)] +
    if NextPage(|rows|, page, limit).Some? then Follow(rows, page + 1, limit) else []
  }

  function Concat<T>(pages: seq<seq<T>>): seq<T> {
    if pages == [] then [] else pages[0] + Concat(pages[1..])
  }

  lemma StartWithin(total: nat, page: int, limit: int)
    requires page >= 1 && limit >= 1 && (page == 1 || Skip(page, limit) < total)
    ensures 0 <= Skip(page, limit) <= total
  {
    MulMono(0, page - 1, limit);
  }

  /** A page and the rows after it. */
  lemma PageSplits<T>(rows: seq<T>, page: int, limit: int)
    requires page >= 1 && limit >= 1 && 0 <= Skip(page, limit) <= |rows|
    ensures Skip(page, limit) + limit < |rows| ==>
              rows[Skip(page, limit)..] == PageRows(rows, page, limit) + rows[Skip(page, limit) + limit..]
    ensures Skip(page, limit) + limit >= |rows| ==> rows[Skip(page, limit)..] == PageRows(rows, page, limit)
  {
  }

  lemma ConcatCons<T>(page: seq<T>, rest: seq<seq<T>>)
    ensures Concat([page] + rest) == page + Concat(rest)
  {
    assert ([page] + rest)[1..] == rest;
  }

  lemma {:induction false} FollowCovers<T>(rows: seq<T>, page: int, limit: int)
    requires page >= 1 && limit >= 1 && (page == 1 || Skip(page, limit) < |rows|)
    ensures 0 <= Skip(page, limit) <= |rows| && Concat(Follow(rows, page, limit)) == rows[Skip(page, limit)..]
    decreases if Skip(page, limit) + limit < |rows| then |rows| - Skip(page, limit) else 0
  {
    StartWithin(|rows|, page, limit);
    PageSplits(rows, page, limit);
    NextStart(page, limit);
    if NextPage(|rows|, page, limit).Some? {
      FollowCovers(rows, page + 1, limit);
      ConcatCons(PageRows(rows, page, limit), Follow(rows, page + 1, limit));
    } else {
      ConcatCons<T>(PageRows(rows, page, limit), []);
    }
  }

  lemma {:induction false} FollowLength<T>(rows: seq<T>, page: int, limit: int)
    requires page >= 1 && limit >= 1
    ensures |Follow(rows, page, limit)| == if PageCount(|rows|, limit) > page then PageCount(|rows|, limit) - page + 1 else 1
    decreases if Skip(page, limit) + limit < |rows| then |rows| - Skip(page, limit) else 0
  {
    NextStart(page, limit);
    NextPagesAgree(|rows|, page, limit);
    if NextPage(|rows|, page, limit).Some? {
      FollowLength(rows, page + 1, limit);
    }
  }

  /** From page 1 the chain ends after max(1, pageCount) pages, and the pages in order are the whole list, each row once. */
  lemma PageChain<T>(rows: seq<T>, limit: int)
    requires limit >= 1
    ensures Concat(Follow(rows, 1, limit)) == rows
    ensures |Follow(rows, 1, limit)| == if PageCount(|rows|, limit) > 1 then PageCount(|rows|, limit) else 1
    ensures forall p :: p in Follow(rows, 1, limit) ==> |p| <= limit
  {
    FollowCovers(rows, 1, limit);
    FollowLength(rows, 1, limit);
    FollowSizes(rows, 1, limit);
  }

  lemma PastTheEnd(total: nat, page: int, limit: int)
    requires page >= 1 && limit >= 1
    ensures Skip(page, limit) >= total <==> page > PageCount(total, limit)
  {
    var q := PageCount(total, limit);
    PageCountBounds(total, limit);
    if page > q {
      MulMono(q, page - 1, limit);
    } else {
      MulMono(page - 1, q - 1, limit);
    }
  }

  /** Whatever numbers a request carries, it gets at most 100 rows, and none exactly when it asks past the last page. */
  lemma AnyRequest<T>(rows: seq<T>, page: Option<int>, limit: Option<int>)
    ensures var p, n := ClampPage(page), ClampLimit(limit);
            && |PageRows(rows, p, n)| <= 100
            && (PageRows(rows, p, n) == [] <==> p > PageCount(|rows|, n))
            && NextPage(|rows|, p, n) == NextPageByCount(|rows|, p, n)
  {
    var p, n := ClampPage(page), ClampLimit(limit);
    PastTheEnd(|rows|, p, n);
    MulMono(0, p - 1, n);
    NextPagesAgree(|rows|, p, n);
  }

  lemma {:induction false} FollowSizes<T>(rows: seq<T>, page: int, limit: int)
    requires page >= 1 && limit >= 1
    ensures forall p :: p in Follow(rows, page, limit) ==> |p| <= limit
    decreases if Skip(page, limit) + limit < |rows| then |rows| - Skip(page, limit) else 0
  {
    NextStart(page, limit);
    if NextPage(|rows|, page, limit).Some? {
      FollowSizes(rows, page + 1, limit);
    }
  }
}
