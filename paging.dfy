// Page arithmetic shared by the user and clothing listings.

module Paging {

  /** `(total + page_size - 1) // page_size`: the least page count covering `total` rows. */
  function TotalPages(total: nat, pageSize: int): (r: nat)
    requires pageSize >= 1
    ensures r * pageSize >= total
    ensures r > 0 ==> (r - 1) * pageSize < total
  {
    var r := (total + pageSize - 1) / pageSize;
    assert r * pageSize + (total + pageSize - 1) % pageSize == total + pageSize - 1;
    r
  }

  /** `(page - 1) * page_size`: the number of rows before the requested page. */
  function Offset(page: int, pageSize: int): int
    requires page >= 1 && pageSize >= 1
  {
    (page - 1) * pageSize
  }

  /** A page holds at least one row exactly when its number is at most the page count. */
  lemma PageNonEmptyIffWithinCount(total: nat, page: int, pageSize: int)
    requires page >= 1 && pageSize >= 1
    ensures Offset(page, pageSize) < total <==> page <= TotalPages(total, pageSize)
  {
    var n := TotalPages(total, pageSize);
    if page <= n {
      MulMonotone(page - 1, n - 1, pageSize);
    } else {
      MulMonotone(n, page - 1, pageSize);
    }
  }

  lemma MulMonotone(a: int, b: int, c: int)
    requires 0 <= a <= b && c >= 0
    ensures a * c <= b * c
  {
  }
}
