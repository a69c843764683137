/** The page window of the tool listing: `skip = (page - 1) * limit`, `take = limit`, and `totalPages`. */
module Paging {
  import opened Common

  /** How many records a page skips: the first page starts at the beginning, and each page starts `limit` after the one before. */
  function Offset(page: nat, limit: nat): (r: nat)
    requires page >= 1
    ensures page == 1 ==> r == 0
    ensures r + limit == page * limit
  {
    (page - 1) * limit
  }

  /** The records a `skip`/`take` query returns: the run of `s` that starts at `skip`, at most `take` long. */
  function Window<T>(s: seq<T>, skip: nat, take: nat): (r: seq<T>)
    ensures |r| == Min(take, |s| - Min(skip, |s|))
    ensures forall k :: 0 <= k < |r| ==> skip + k < |s| && r[k] == s[skip + k]
  {
    s[Min(skip, |s|)..Min(skip + take, |s|)]
  }

  /** `Math.ceil(total / limit)` on integers: the least page count whose pages hold `total` records. */
  function TotalPages(total: nat, limit: nat): (r: nat)
    requires limit >= 1
    ensures (r - 1) * limit < total <= r * limit
  {
    var r := (total + limit - 1) / limit;
    var m := (total + limit - 1) % limit;
    assert total + limit - 1 == r * limit + m;
    assert (r - 1) * limit == r * limit - limit;
    r
  }

  /** Pages 1 to `n` of `s`, one after another. */
  function Pages<T>(s: seq<T>, limit: nat, n: nat): seq<T>
  {
    if n == 0 then [] else Pages(s, limit, n - 1) + Window(s, Offset(n, limit), limit)
  }

  /** Reading pages 1 to `n` in order gives the first `n * limit` records, none skipped, none repeated. */
  lemma {:induction false} PagesArePrefix<T>(s: seq<T>, limit: nat, n: nat)
    ensures Pages(s, limit, n) == s[..Min(n * limit, |s|)]
  {
    if n > 0 {
      PagesArePrefix(s, limit, n - 1);
      assert Offset(n, limit) == (n - 1) * limit;
      assert n * limit == (n - 1) * limit + limit;
    }
  }

  /** Pages 1 to `totalPages` together hold every record exactly once, in order. */
  lemma PagesCoverAll<T>(s: seq<T>, limit: nat)
    requires limit >= 1
    ensures Pages(s, limit, TotalPages(|s|, limit)) == s
  {
    PagesArePrefix(s, limit, TotalPages(|s|, limit));
  }

  /** A page has records exactly when its number is between 1 and `totalPages`. */
  lemma NonEmptyPages<T>(s: seq<T>, limit: nat, page: nat)
    requires limit >= 1 && page >= 1
    ensures Window(s, Offset(page, limit), limit) != [] <==> page <= TotalPages(|s|, limit)
  {
    var n := TotalPages(|s|, limit);
    if page <= n {
      assert (page - 1) * limit <= (n - 1) * limit by {
        MulMonotone(page - 1, n - 1, limit);
      }
    } else {
      assert n * limit <= (page - 1) * limit by {
        MulMonotone(n, page - 1, limit);
      }
    }
  }

  lemma MulMonotone(a: nat, b: nat, k: nat)
    requires a <= b
    ensures a * k <= b * k
  {
  }
}
