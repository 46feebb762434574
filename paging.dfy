/** The page arithmetic of the list endpoints. The controllers turn a page
    number into a row offset, `skip = (page - 1) * limit`; the route and route
    point lists report `totalPages = Math.ceil(total / limit)`; the trip list
    reports `page = Math.floor(skip / take) + 1`. Numbers are JavaScript
    numbers: a division by zero gives a non-finite value, written `None` here. */
module Paging {
  import opened Common

  /** `Math.floor(a / b)` for `b != 0` (Dafny's `/` rounds towards minus
      infinity only for a positive divisor). */
  function FloorDiv(a: int, b: int): (q: int)
    requires b != 0
    ensures b > 0 ==> q * b <= a < q * b + b
    ensures b < 0 ==> q * b >= a > q * b + b
  {
    if b > 0 then a / b else (-a) / (-b)
  }

  /** `Math.ceil(a / b)` for `b != 0`. */
  function CeilDiv(a: int, b: int): (q: int)
    requires b != 0
    ensures b > 0 ==> q * b - b < a <= q * b
    ensures b < 0 ==> q * b - b > a >= q * b
  {
    -FloorDiv(-a, b)
  }

  /** The row offset of a page. */
  function Skip(page: int, limit: int): int {
    (page - 1) * limit
  }

  /** The page number the trip list reports for an offset. */
  function PageOf(skip: int, take: int): Option<int> {
    if take == 0 then None else Some(FloorDiv(skip, take) + 1)
  }

  /** The page count the route and route-point lists report. */
  function TotalPages(total: nat, limit: int): Option<int> {
    if limit == 0 then None else Some(CeilDiv(total, limit))
  }

  /** The trip list reports back the page the client asked for. */
  lemma PageOfSkip(page: int, limit: int)
    requires limit != 0
    ensures PageOf(Skip(page, limit), limit) == Some(page)
  {
    var q := FloorDiv(Skip(page, limit), limit);
    var d := page - 1 - q;
    assert d * limit == (page - 1) * limit - q * limit;
    if limit > 0 {
      assert 0 <= d * limit < limit;
    } else {
      assert 0 >= d * limit > limit;
    }
  }

  /** With a positive limit, the reported pages hold every row and no page is
      empty: the last page starts before `total`; no rows means no pages. */
  lemma TotalPagesCoversRows(total: nat, limit: int)
    requires limit > 0
    ensures TotalPages(total, limit).Some?
    ensures var p := TotalPages(total, limit).value;
      && p >= 0
      && (p == 0 <==> total == 0)
      && total <= p * limit
      && (total > 0 ==> Skip(p, limit) < total)
  {
    var p := CeilDiv(total, limit);
    assert (p - 1) * limit < total <= p * limit;
  }
}
