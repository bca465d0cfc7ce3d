/** The page window of a paginated listing (`getAll`). */
module Paging {

  function Min(a: int, b: int): (m: int) { if a <= b then a else b }
  function Max(a: int, b: int): (m: int) { if a >= b then a else b }

  /**
   * The page window: `slice((page - 1) * limit, (page - 1) * limit + limit)`,
   * clipped to the records there are.
   */
  function Page<T>(s: seq<T>, page: int, limit: int): (r: seq<T>)
    requires page >= 1 && limit >= 1
    ensures |r| == Min(limit, Max(0, |s| - (page - 1) * limit))
    ensures forall k :: 0 <= k < |r| ==> r[k] == s[(page - 1) * limit + k]
  {
    var start := (page - 1) * limit;
    if start >= |s| then [] else s[start..Min(start + limit, |s|)]
  }
}
