/** The generic repository: a keyed store of values, and the pagination
    arithmetic shared by every paginated query. */
module Repository {
  import opened Core

  /** A store of rows keyed by id. The store holds values, so a row read
      with `GetByID` is a copy: changing it changes nothing stored until
      `Update` overwrites the row. `rejected` is the set of ids whose
      writes the storage adapter refuses. */
  class Store<T> {
    var rows: map<Uuid, T>
    var rejected: set<Uuid>

    constructor (rows: map<Uuid, T>, rejected: set<Uuid>)
      ensures this.rows == rows && this.rejected == rejected
    {
      this.rows := rows;
      this.rejected := rejected;
    }

    method GetByID(id: Uuid) returns (r: Result<T>)
      ensures r.Ok? <==> id in rows
      ensures r.Ok? ==> r.value == rows[id]
      ensures r.Err? ==> r.error == NotFound
    {
      if id in rows {
        r := Ok(rows[id]);
      } else {
        r := Err(NotFound);
      }
    }

    /** Saves `row` under `id`, replacing whatever was stored there. */
    method Update(id: Uuid, row: T) returns (err: Option<Error>)
      modifies this`rows
      ensures err == (if id in rejected then Some(WriteRejected) else None)
      ensures rows == if id in rejected then old(rows) else old(rows)[id := row]
    {
      if id in rejected {
        return Some(WriteRejected);
      }
      rows := rows[id := row];
      err := None;
    }

    /** Inserts a new row; an id already present is refused like a
        primary-key clash. */
    method Create(id: Uuid, row: T) returns (err: Option<Error>)
      modifies this`rows
      ensures err == (if id in rejected || id in old(rows) then Some(WriteRejected) else None)
      ensures rows == if err.Some? then old(rows) else old(rows)[id := row]
    {
      if id in rejected || id in rows {
        return Some(WriteRejected);
      }
      rows := rows[id := row];
      err := None;
    }

    method Delete(id: Uuid) returns (err: Option<Error>)
      modifies this`rows
      ensures err == (if id in rejected then Some(WriteRejected) else None)
      ensures rows == if id in rejected then old(rows) else old(rows) - {id}
    {
      if id in rejected {
        return Some(WriteRejected);
      }
      rows := rows - {id};
      err := None;
    }
  }

  datatype PaginationRequest = PaginationRequest(page: int, pageSize: int)

  datatype PaginationResponse<T> = PaginationResponse(
    data: seq<T>, page: int, pageSize: int, total: int, totalPages: int)

  const DefaultPageSize: int := 10

  /** A non-positive page becomes 1 and a non-positive size becomes 10. */
  function Normalize(req: PaginationRequest): (n: PaginationRequest)
    ensures n.page >= 1 && n.pageSize >= 1
    ensures n.page == (if req.page <= 0 then 1 else req.page)
    ensures n.pageSize == (if req.pageSize <= 0 then DefaultPageSize else req.pageSize)
  {
    PaginationRequest(if req.page <= 0 then 1 else req.page,
                      if req.pageSize <= 0 then DefaultPageSize else req.pageSize)
  }

  /** Number of rows skipped before the requested page. */
  function Offset(req: PaginationRequest): (offset: nat)
    requires req.page >= 1 && req.pageSize >= 1
    ensures offset == (req.page - 1) * req.pageSize
    ensures offset % req.pageSize == 0
  {
    MulNonNegative(req.page - 1, req.pageSize);
    ModOfMultiple(req.page - 1, req.pageSize);
    (req.page - 1) * req.pageSize
  }

  /** The number of pages that hold `total` rows: the ceiling of the quotient. */
  function TotalPages(total: nat, pageSize: int): (pages: nat)
    requires pageSize >= 1
    ensures total == 0 ==> pages == 0
    ensures total > 0 ==> (pages - 1) * pageSize < total <= pages * pageSize
  {
    var q := total / pageSize;
    var r := total % pageSize;
    var pages := if r > 0 then q + 1 else q;
    CeilingBounds(total, pageSize, q, r, pages);
    pages
  }

  /** The rows from `offset`, at most `pageSize` of them. */
  function PageSlice<T>(rows: seq<T>, offset: nat, pageSize: nat): (data: seq<T>)
    ensures |data| <= pageSize
    ensures offset >= |rows| ==> data == []
    ensures offset < |rows| ==> |data| == Min(pageSize, |rows| - offset)
    ensures forall i :: 0 <= i < |data| ==> offset + i < |rows| && data[i] == rows[offset + i]
  {
    if offset >= |rows| then []
    else rows[offset .. offset + Min(pageSize, |rows| - offset)]
  }

  function Min(a: int, b: int): int { if a <= b then a else b }

  /** The response a paginated query gives for `rows`, the query's rows in
      the database's order. */
  function Paginate<T>(rows: seq<T>, req: PaginationRequest): (resp: PaginationResponse<T>)
    ensures resp.page == Normalize(req).page && resp.pageSize == Normalize(req).pageSize
    ensures resp.total == |rows|
    ensures resp.data == PageSlice(rows, Offset(Normalize(req)), Normalize(req).pageSize)
    ensures resp.totalPages == TotalPages(|rows|, Normalize(req).pageSize)
  {
    var n := Normalize(req);
    PaginationResponse(PageSlice(rows, Offset(n), n.pageSize), n.page, n.pageSize,
                       |rows|, TotalPages(|rows|, n.pageSize))
  }

  /** `GetPaginated` as the repository runs it: normalise the request in
      place, slice, then round the page count up. */
  method GetPaginated<T>(rows: seq<T>, req: PaginationRequest) returns (resp: PaginationResponse<T>)
    ensures resp == Paginate(rows, req)
  {
    var page, pageSize := req.page, req.pageSize;
    if page <= 0 {
      page := 1;
    }
    if pageSize <= 0 {
      pageSize := DefaultPageSize;
    }
    var total := |rows|;
    var offset := (page - 1) * pageSize;
    MulNonNegative(page - 1, pageSize);
    var data := PageSlice(rows, offset, pageSize);
    var totalPages := total / pageSize;
    if total % pageSize > 0 {
      totalPages := totalPages + 1;
    }
    resp := PaginationResponse(data, page, pageSize, total, totalPages);
  }

  /** Every row lies on a page that exists: the row `i` with
      `p * size <= i < (p + 1) * size` is found on page `p + 1`, which is
      among the first `TotalPages` pages. */
  lemma EveryRowOnItsPage<T>(rows: seq<T>, pageSize: int, p: nat, i: nat)
    requires pageSize >= 1 && i < |rows|
    requires p * pageSize <= i < p * pageSize + pageSize
    ensures p + 1 <= TotalPages(|rows|, pageSize)
    ensures var resp := Paginate(rows, PaginationRequest(p + 1, pageSize));
      i - Offset(PaginationRequest(p + 1, pageSize)) < |resp.data|
      && resp.data[i - Offset(PaginationRequest(p + 1, pageSize))] == rows[i]
  {
    var req := PaginationRequest(p + 1, pageSize);
    var off := Offset(req);
    assert off == p * pageSize;
    var tp := TotalPages(|rows|, pageSize);
    if tp < p + 1 {
      MulMonotone(tp, p, pageSize);
      assert false;
    }
    assert Normalize(req) == req;
    var data := PageSlice(rows, off, pageSize);
    assert Paginate(rows, req).data == data;
    assert i - off < |data|;
  }

  /** The last page holds what is left after the offset; a page past the
      end is empty. */
  lemma LastAndBeyond<T>(rows: seq<T>, req: PaginationRequest)
    requires |rows| > 0
    ensures var n := Normalize(req);
      var resp := Paginate(rows, req);
      (n.page == resp.totalPages ==> |resp.data| == |rows| - Offset(n))
      && (n.page > resp.totalPages ==> resp.data == [])
  {
    var n := Normalize(req);
    var tp := TotalPages(|rows|, n.pageSize);
    if n.page == tp {
      assert Offset(n) == (tp - 1) * n.pageSize;
    } else if n.page > tp {
      MulMonotone(tp, n.page - 1, n.pageSize);
    }
  }

  // Arithmetic helpers for the pagination lemmas.

  lemma MulNonNegative(a: int, b: int)
    requires a >= 0 && b >= 0
    ensures a * b >= 0
  {
  }

  lemma ModOfMultiple(a: nat, b: int)
    requires b >= 1
    ensures (a * b) % b == 0
  {
    var q := (a * b) / b;
    var r := (a * b) % b;
    assert a * b == q * b + r;
    if r != 0 {
      if q < a {
        MulMonotone(q + 1, a, b);
      } else {
        MulMonotone(a, q, b);
      }
    }
  }

  lemma MulMonotone(a: int, b: int, c: int)
    requires a <= b && c >= 0
    ensures a * c <= b * c
  {
    assert b * c - a * c == (b - a) * c;
  }

  lemma CeilingBounds(total: nat, d: int, q: int, r: int, pages: int)
    requires d >= 1 && q == total / d && r == total % d
    requires pages == (if r > 0 then q + 1 else q)
    ensures pages >= 0
    ensures total == 0 ==> pages == 0
    ensures total > 0 ==> (pages - 1) * d < total <= pages * d
  {
    assert total == q * d + r && 0 <= r < d;
    if q < 0 {
      MulMonotone(q, -1, d);
      assert false;
    }
    if total > 0 {
      if r > 0 {
        assert (pages - 1) * d == q * d;
        assert pages * d == q * d + d;
      } else {
        assert q >= 1;
        assert (pages - 1) * d == q * d - d;
      }
    }
  }
}
