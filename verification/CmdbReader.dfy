/** Paged Table API reads: against a fixed result list, paging is invisible. */
module CmdbReader {
  import opened Sequences

  const PAGE_SIZE: nat := 500

  function Least(a: int, b: int): int { if a < b then a else b }

  /** What the server returns for one page of a fixed result list. */
  function Page<R>(all: seq<R>, offset: nat, limit: nat): seq<R>
    requires offset <= |all|
  {
    all[offset..Least(offset + limit, |all|)]
  }

  lemma {:induction false} FullPages(k: nat, n: nat)
    ensures n <= k * PAGE_SIZE ==> Ceil(n, PAGE_SIZE) <= k
    ensures n > k * PAGE_SIZE ==> Ceil(n, PAGE_SIZE) == k + Ceil(n - k * PAGE_SIZE, PAGE_SIZE)
  {
    if k > 0 && n > PAGE_SIZE {
      FullPages(k - 1, n - PAGE_SIZE);
    }
  }

  /**
    The first maxRows of the matching rows, whether the cap was reached (reported also when
    it was reached exactly), and no request more than that takes.
   */
  method Fetch<R>(all: seq<R>, maxRows: int) returns (rows: seq<R>, truncated: bool, requests: nat)
    ensures rows == all[..Least(|all|, if maxRows > 0 then maxRows else 0)]
    ensures truncated <==> |all| >= maxRows
    ensures requests == if maxRows <= 0 then 0 else if |all| >= maxRows then Ceil(maxRows, 500) else |all| / 500 + 1
  {
    rows, requests := [], 0;
    var offset: nat := 0;
    while |rows| < maxRows
      invariant offset == |rows| <= |all| && rows == all[..offset]
      invariant |rows| < maxRows ==> offset == requests * PAGE_SIZE
      invariant |rows| <= maxRows || rows == []
      invariant |rows| == maxRows > 0 ==> requests == Ceil(maxRows, PAGE_SIZE)
      invariant maxRows <= 0 ==> requests == 0
      decreases maxRows - |rows|
    {
      var pageSize := Least(PAGE_SIZE, maxRows - |rows|);
      var page := Page(all, offset, pageSize);
      FullPages(requests, maxRows);
      requests := requests + 1;
      rows := rows + page;
      assert rows == all[..offset + |page|];
      if |page| < pageSize {
        assert all[..|all|] == all;
        return rows, false, requests;
      }
      offset := offset + |page|;
    }
    truncated := true;
  }
}
