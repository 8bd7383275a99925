/** The offset/limit walk over a list endpoint (client.py:236-285): request
    `skip = 0, limit, 2*limit, …` until the rows gathered so far reach the
    `total` the last page reported. The server is a function from the request
    to its decoded outcome; `Walk` is the specification the client's loop is
    proved against. */
module Pagination {
  import opened Wrappers
  import opened Models

  /** Request number `k`: the base parameters with `skip = k * limit` and `limit`
      set over them (client.py:260-264). */
  function PageRequest(url: string, params: map<string, Value>, headers: map<string, string>,
                       limit: int, k: nat): (r: GetRequest)
    ensures r.url == url && r.headers == headers
    ensures r.params.Keys == params.Keys + {"skip", "limit"}
    ensures r.params["skip"] == VInt(k * limit) && r.params["limit"] == VInt(limit)
    ensures forall p :: p in params && p != "skip" && p != "limit" ==> r.params[p] == params[p]
  {
    GetRequest(url, params["skip" := VInt(k * limit)]["limit" := VInt(limit)], headers)
  }

  /** The walk from request `k` on, with `acc` gathered so far, allowed at most
      `fuel` more requests: `None` when it has not stopped by then, otherwise
      all rows or the first failure. */
  function Walk<T>(server: GetRequest -> GetOutcome<T>, url: string, params: map<string, Value>,
                   headers: map<string, string>, limit: int, k: nat, acc: seq<T>, fuel: nat): (r: Option<Result<seq<T>>>)
    ensures r.Some? && r.value.Ok? ==> acc <= r.value.value
    decreases fuel
  {
    if fuel == 0 then None
    else match server(PageRequest(url, params, headers, limit, k))
      case Failed(e) => Some(Err(e))
      case Rows(rows, total) =>
        if |acc + rows| >= total then Some(Ok(acc + rows))
        else Walk(server, url, params, headers, limit, k + 1, acc + rows, fuel - 1)
  }

  /** The rows of the first `n` pages in order, if all `n` requests succeed. */
  function Fetched<T>(server: GetRequest -> GetOutcome<T>, url: string, params: map<string, Value>,
                      headers: map<string, string>, limit: int, n: nat): Option<seq<T>>
  {
    if n == 0 then Some([])
    else match Fetched(server, url, params, headers, limit, n - 1)
      case None => None
      case Some(prev) =>
        match server(PageRequest(url, params, headers, limit, n - 1))
        case Failed(_) => None
        case Rows(rows, _) => Some(prev + rows)
  }

  /** After page `j` the loop goes on: that page succeeded and the rows gathered
      through it are fewer than the total it reported. */
  predicate ContinuesAfter<T>(server: GetRequest -> GetOutcome<T>, url: string, params: map<string, Value>,
                              headers: map<string, string>, limit: int, j: nat)
  {
    var page := server(PageRequest(url, params, headers, limit, j));
    var got := Fetched(server, url, params, headers, limit, j + 1);
    page.Rows? && got.Some? && |got.value| < page.total
  }

  /** A walk that made `n` requests and gave `outcome`: every page before the
      last asked for more; then either the last page brought the gathered rows
      (pages `0 … n-1` in order) up to its reported total, or the last request
      failed and its error is the outcome. */
  ghost predicate EndsAfter<T>(server: GetRequest -> GetOutcome<T>, url: string, params: map<string, Value>,
                         headers: map<string, string>, limit: int, n: nat, outcome: Result<seq<T>>)
    requires n > 0
  {
    && (forall j: nat :: j < n - 1 ==> ContinuesAfter(server, url, params, headers, limit, j))
    && match outcome
       case Ok(rows) =>
         && Fetched(server, url, params, headers, limit, n) == Some(rows)
         && server(PageRequest(url, params, headers, limit, n - 1)).Rows?
         && |rows| >= server(PageRequest(url, params, headers, limit, n - 1)).total
       case Err(e) =>
         && Fetched(server, url, params, headers, limit, n - 1).Some?
         && server(PageRequest(url, params, headers, limit, n - 1)) == Failed(e)
  }

  lemma {:induction false} WalkOutcomeFrom<T>(server: GetRequest -> GetOutcome<T>, url: string,
                                              params: map<string, Value>, headers: map<string, string>,
                                              limit: int, k: nat, acc: seq<T>, fuel: nat)
    requires Fetched(server, url, params, headers, limit, k) == Some(acc)
    requires forall j: nat :: j < k ==> ContinuesAfter(server, url, params, headers, limit, j)
    ensures Walk(server, url, params, headers, limit, k, acc, fuel).Some? ==>
      exists n: nat :: k < n <= k + fuel
        && EndsAfter(server, url, params, headers, limit, n, Walk(server, url, params, headers, limit, k, acc, fuel).value)
    decreases fuel
  {
    if fuel > 0 {
      var page := server(PageRequest(url, params, headers, limit, k));
      if page.Rows? && |acc + page.rows| < page.total {
        assert ContinuesAfter(server, url, params, headers, limit, k);
        forall j: nat | j < k + 1 ensures ContinuesAfter(server, url, params, headers, limit, j) {
        }
        WalkOutcomeFrom(server, url, params, headers, limit, k + 1, acc + page.rows, fuel - 1);
      } else {
        assert EndsAfter(server, url, params, headers, limit, k + 1,
                         Walk(server, url, params, headers, limit, k, acc, fuel).value);
      }
    }
  }

  /** What a completed walk returns: with some number `n` of requests, either
      the in-order rows of pages `0 … n-1`, where page `n-1` is the first whose
      gathered count reaches its reported total, or the failure of request
      `n-1` after `n-1` pages that all asked for more. Nothing partial is
      returned on failure. */
  lemma {:induction false} WalkOutcome<T>(server: GetRequest -> GetOutcome<T>, url: string, params: map<string, Value>,
                       headers: map<string, string>, limit: int, fuel: nat)
    ensures Walk(server, url, params, headers, limit, 0, [], fuel).Some? ==>
      exists n: nat :: 0 < n <= fuel
        && EndsAfter(server, url, params, headers, limit, n, Walk(server, url, params, headers, limit, 0, [], fuel).value)
  {
    WalkOutcomeFrom(server, url, params, headers, limit, 0, [], fuel);
  }

  /** Rows `skip … skip+limit` of `all`, clipped to its end. */
  function Slice<T>(all: seq<T>, skip: int, limit: int): seq<T>
    requires 0 <= skip && 0 <= limit
  {
    var lo := if skip <= |all| then skip else |all|;
    var hi := if skip + limit <= |all| then skip + limit else |all|;
    all[lo..hi]
  }

  /** The number of requests needed for `size` rows: ⌈size / limit⌉, and at least one. */
  function PagesFor(size: nat, limit: nat): nat
    requires limit > 0
  {
    if size <= limit then 1 else 1 + PagesFor(size - limit, limit)
  }

  lemma {:induction false} SlicedWalkFrom<T>(server: GetRequest -> GetOutcome<T>, url: string,
                                             params: map<string, Value>, headers: map<string, string>,
                                             limit: nat, all: seq<T>, k: nat, fuel: nat)
    requires limit > 0
    requires forall j: nat :: server(PageRequest(url, params, headers, limit, j)) == Rows(Slice(all, j * limit, limit), |all|)
    requires k * limit < |all| || k == 0
    ensures Walk(server, url, params, headers, limit, k, all[..k * limit], fuel)
            == if fuel >= PagesFor(|all| - k * limit, limit) then Some(Ok(all)) else None
    decreases fuel
  {
    var left := |all| - k * limit;
    if fuel > 0 {
      var rows := Slice(all, k * limit, limit);
      assert (k + 1) * limit == k * limit + limit;
      if k * limit + limit >= |all| {
        assert all[..k * limit] + rows == all;
      } else {
        assert all[..k * limit] + rows == all[..(k + 1) * limit];
        SlicedWalkFrom(server, url, params, headers, limit, all, k + 1, fuel - 1);
        assert |all| - (k + 1) * limit == left - limit;
      }
    }
  }

  /** A server that serves a fixed list page by page, always reporting its
      length as the total: the walk returns exactly that list, and it needs
      exactly ⌈length / limit⌉ requests (at least one) — 250 rows at 100 per
      page take three. */
  lemma {:induction false} SlicedServerWalk<T>(server: GetRequest -> GetOutcome<T>, url: string,
                            params: map<string, Value>, headers: map<string, string>,
                            limit: nat, all: seq<T>, fuel: nat)
    requires limit > 0
    requires forall j: nat :: server(PageRequest(url, params, headers, limit, j)) == Rows(Slice(all, j * limit, limit), |all|)
    ensures fuel >= PagesFor(|all|, limit) ==> Walk(server, url, params, headers, limit, 0, [], fuel) == Some(Ok(all))
    ensures fuel < PagesFor(|all|, limit) ==> Walk(server, url, params, headers, limit, 0, [], fuel).None?
  {
    assert all[..0 * limit] == [];
    SlicedWalkFrom(server, url, params, headers, limit, all, 0, fuel);
  }

  /** A first page whose rows already reach its reported total, such as any
      page reporting `total 0`, ends the walk after that one request. */
  lemma FirstPageEnough<T>(server: GetRequest -> GetOutcome<T>, url: string, params: map<string, Value>,
                           headers: map<string, string>, limit: int, fuel: nat)
    requires fuel > 0
    requires server(PageRequest(url, params, headers, limit, 0)).Rows?
    requires |server(PageRequest(url, params, headers, limit, 0)).rows| >= server(PageRequest(url, params, headers, limit, 0)).total
    ensures Walk(server, url, params, headers, limit, 0, [], fuel) == Some(Ok(server(PageRequest(url, params, headers, limit, 0)).rows))
  {
    assert [] + server(PageRequest(url, params, headers, limit, 0)).rows == server(PageRequest(url, params, headers, limit, 0)).rows;
  }

  /** `PagesFor` is the ceiling of `size / limit`, and one for no rows. */
  lemma {:induction false} PagesForCeiling(size: nat, limit: nat)
    requires limit > 0
    ensures PagesFor(size, limit) == if size == 0 then 1 else (size + limit - 1) / limit
    decreases size
  {
    if size == 0 {
    } else if size <= limit {
      DivOne(size + limit - 1, limit);
    } else {
      PagesForCeiling(size - limit, limit);
      DivStep(size - 1, limit);
    }
  }

  lemma DivOne(x: nat, limit: nat)
    requires limit <= x < 2 * limit
    ensures x / limit == 1
  {
  }

  lemma DivStep(x: nat, limit: nat)
    requires limit > 0
    ensures (x + limit) / limit == x / limit + 1
  {
    var q, r := x / limit, x % limit;
    assert x + limit == (q + 1) * limit + r;
    DivUnique(x + limit, limit, q + 1, r);
  }

  /** Division is determined by any quotient and remainder that fit. */
  lemma DivUnique(n: int, d: int, q: int, r: int)
    requires d > 0 && 0 <= r < d && n == q * d + r
    ensures n / d == q
  {
    var q2, r2 := n / d, n % d;
    assert (q2 - q) * d == r - r2;
    if q2 > q {
      MulAtLeast(q2 - q, d);
    } else if q2 < q {
      MulAtLeast(q - q2, d);
    }
  }

  lemma MulAtLeast(a: int, d: int)
    requires a >= 1 && d > 0
    ensures a * d >= d
  {
  }
}
