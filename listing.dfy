/** The listing engine behind `SandboxClient.list`: fetch a page, decode its
    records, append those whose id is not yet accumulated, and stop when the
    server reports no next page or the limit is reached. The server is an input:
    a function from the query to the transport result for that page. The source
    loops with `while (true)`; here the number of fetches is bounded by `fuel`. */
module Listing {
  import opened Wrappers
  import opened Responses
  import opened Privacy

  /** A sandbox record as the list endpoint returns it (timestamps as ISO text). */
  datatype WireSandbox = WireSandbox(
    id: string,
    created_at: string,
    updated_at: string,
    title: Option<string>,
    description: Option<string>,
    privacy: int,
    tags: seq<string>)

  /** One page: its records, the server's total and its next-page cursor. */
  datatype WirePage = WirePage(sandboxes: seq<WireSandbox>, total_records: int, next_page: Option<int>)

  /** `SandboxInfo`. */
  datatype SandboxInfo = SandboxInfo(
    id: string,
    createdAt: string,
    updatedAt: string,
    title: Option<string>,
    description: Option<string>,
    privacy: SandboxPrivacy,
    tags: seq<string>)

  datatype OrderBy = InsertedAt | UpdatedAt
  datatype Direction = Asc | Desc
  datatype Status = Running

  datatype PaginationOpts = PaginationOpts(page: Option<int>, pageSize: Option<int>)

  /** The options of `list`: filters, `limit` and the manual cursor. */
  datatype ListOpts = ListOpts(
    tags: Option<seq<string>>,
    orderBy: Option<OrderBy>,
    direction: Option<Direction>,
    status: Option<Status>,
    limit: Option<int>,
    pagination: Option<PaginationOpts>)

  /** The query of one page fetch; `tags` travels comma-joined. */
  datatype ListQuery = ListQuery(
    tags: Option<seq<string>>,
    page: int,
    page_size: int,
    order_by: Option<OrderBy>,
    direction: Option<Direction>,
    status: Option<Status>)

  datatype Pagination = Pagination(currentPage: int, nextPage: Option<int>, pageSize: int)

  /** `SandboxListResponse`. */
  datatype ListResponse = ListResponse(
    sandboxes: seq<SandboxInfo>,
    hasMore: bool,
    totalCount: int,
    pagination: Pagination)

  const ListContext := "Failed to list sandboxes"

  /** `opts.limit ?? 50`. */
  function Limit(opts: ListOpts): (n: int)
    ensures opts.limit.None? ==> n == 50
    ensures opts.limit.Some? ==> n == opts.limit.value
  {
    if opts.limit.Some? then opts.limit.value else 50
  }

  /** `opts.pagination?.page ?? 1`. */
  function FirstPage(opts: ListOpts): (p: int)
    ensures opts.pagination.None? || opts.pagination.value.page.None? ==> p == 1
    ensures opts.pagination.Some? && opts.pagination.value.page.Some? ==> p == opts.pagination.value.page.value
  {
    if opts.pagination.Some? && opts.pagination.value.page.Some? then opts.pagination.value.page.value else 1
  }

  /** `opts.pagination?.pageSize ?? limit`. */
  function PageSize(opts: ListOpts): (n: int)
    ensures opts.pagination.None? || opts.pagination.value.pageSize.None? ==> n == Limit(opts)
    ensures opts.pagination.Some? && opts.pagination.value.pageSize.Some? ==>
      n == opts.pagination.value.pageSize.value
  {
    if opts.pagination.Some? && opts.pagination.value.pageSize.Some? then opts.pagination.value.pageSize.value
    else Limit(opts)
  }

  /** The query for page `page`: the filters of `opts` and the fixed page size. */
  function QueryFor(opts: ListOpts, page: int): ListQuery {
    ListQuery(opts.tags, page, PageSize(opts), opts.orderBy, opts.direction, opts.status)
  }

  /** The record mapping: fields copied, privacy decoded (which may throw). */
  function InfoOf(w: WireSandbox): (r: Result<SandboxInfo, Error>)
    ensures r.Success? <==> FromNumber(w.privacy).Success?
    ensures r.Failure? ==> r.error == InvalidPrivacyNumber(w.privacy)
    ensures r.Success? ==> r.value.id == w.id && r.value.tags == w.tags && r.value.title == w.title
    ensures r.Success? ==> r.value.description == w.description &&
                           r.value.createdAt == w.created_at && r.value.updatedAt == w.updated_at
    ensures r.Success? ==> ToNumber(r.value.privacy) == w.privacy
  {
    match FromNumber(w.privacy)
    case Failure(e) => Failure(e)
    case Success(p) =>
      EncodeDecode(w.privacy);
      Success(SandboxInfo(w.id, w.created_at, w.updated_at, w.title, w.description, p, w.tags))
  }

  /** `info.sandboxes.map(...)`: every record decoded, in order, or the failure of
      the first record whose privacy code is invalid. */
  function DecodeAll(ws: seq<WireSandbox>): (r: Result<seq<SandboxInfo>, Error>)
    ensures r.Success? <==> forall i :: 0 <= i < |ws| ==> InfoOf(ws[i]).Success?
    ensures r.Success? ==> |r.value| == |ws| && forall i :: 0 <= i < |ws| ==> Success(r.value[i]) == InfoOf(ws[i])
    ensures r.Failure? ==> exists i :: 0 <= i < |ws| && InfoOf(ws[i]) == Failure(r.error) &&
                                       forall j :: 0 <= j < i ==> InfoOf(ws[j]).Success?
  {
    if ws == [] then Success([])
    else match InfoOf(ws[0])
      case Failure(e) => Failure(e)
      case Success(x) =>
        match DecodeAll(ws[1..])
        case Failure(e) =>
          assert forall j :: 1 <= j < |ws| ==> ws[j] == ws[1..][j - 1];
          Failure(e)
        case Success(xs) =>
          assert forall j :: 1 <= j < |ws| ==> ws[j] == ws[1..][j - 1];
          Success([x] + xs)
  }

  /** The ids of the accumulated records. */
  function Ids(s: seq<SandboxInfo>): (r: seq<string>)
    ensures |r| == |s| && forall i :: 0 <= i < |s| ==> r[i] == s[i].id
  {
    seq(|s|, i requires 0 <= i < |s| => s[i].id)
  }

  /** The dedupe filter: the records of `page` whose id is not among `acc`'s.
      It compares with the earlier pages only, not within `page`. */
  function Unseen(acc: seq<SandboxInfo>, page: seq<SandboxInfo>): (r: seq<SandboxInfo>)
    ensures forall x :: x in r <==> x in page && x.id !in Ids(acc)
    ensures |r| <= |page|
  {
    if page == [] then []
    else if page[0].id in Ids(acc) then Unseen(acc, page[1..])
    else [page[0]] + Unseen(acc, page[1..])
  }

  /** On a single record the filter keeps it exactly when its id is new. */
  lemma UnseenSingle(acc: seq<SandboxInfo>, x: SandboxInfo)
    ensures Unseen(acc, [x]) == if x.id in Ids(acc) then [] else [x]
  {
    assert [x][1..] == [];
  }

  /** The filter works record by record: filtering a concatenation is the
      concatenation of the filtered parts, so kept records stay in page order
      with their multiplicity. */
  lemma {:induction false} UnseenConcat(acc: seq<SandboxInfo>, p: seq<SandboxInfo>, q: seq<SandboxInfo>)
    ensures Unseen(acc, p + q) == Unseen(acc, p) + Unseen(acc, q)
    decreases |p|
  {
    if p != [] {
      assert (p + q)[0] == p[0];
      assert (p + q)[1..] == p[1..] + q;
      UnseenConcat(acc, p[1..], q);
    } else {
      assert p + q == q;
    }
  }

  predicate DistinctIds(s: seq<SandboxInfo>) {
    forall i, j :: 0 <= i < j < |s| ==> s[i].id != s[j].id
  }

  predicate DistinctWireIds(ws: seq<WireSandbox>) {
    forall i, j :: 0 <= i < j < |ws| ==> ws[i].id != ws[j].id
  }

  /** Every page the server can return is free of repeated ids. */
  ghost predicate PagesDistinct(server: ListQuery -> Transport<WirePage>) {
    forall q :: server(q).Some? ==> DistinctWireIds(server(q).value.sandboxes)
  }

  /** Two runs of records with distinct ids, no id of the second among the
      first's, concatenate to a run with distinct ids. */
  lemma DistinctConcat(s: seq<SandboxInfo>, t: seq<SandboxInfo>)
    requires DistinctIds(s) && DistinctIds(t)
    requires forall x :: x in t ==> x.id !in Ids(s)
    ensures DistinctIds(s + t)
  {
    var u := s + t;
    forall i, j | 0 <= i < j < |u| ensures u[i].id != u[j].id {
      if i < |s| <= j {
        assert u[j] == t[j - |s|];
        assert u[i].id == Ids(s)[i];
      } else if |s| <= i {
        assert u[i] == t[i - |s|] && u[j] == t[j - |s|];
      }
    }
  }

  /** The records kept from a page with distinct ids have distinct ids. */
  lemma {:induction false} UnseenDistinct(acc: seq<SandboxInfo>, page: seq<SandboxInfo>)
    requires DistinctIds(page)
    ensures DistinctIds(Unseen(acc, page))
    decreases |page|
  {
    if page != [] {
      var rest := page[1..];
      assert DistinctIds(rest) by {
        forall i, j | 0 <= i < j < |rest| ensures rest[i].id != rest[j].id {
          assert rest[i] == page[i + 1] && rest[j] == page[j + 1];
        }
      }
      UnseenDistinct(acc, rest);
      if page[0].id !in Ids(acc) {
        var u := Unseen(acc, rest);
        assert Ids([page[0]]) == [page[0].id];
        forall x | x in u ensures x.id !in Ids([page[0]]) {
          var k :| 0 <= k < |rest| && rest[k] == x;
          assert page[k + 1] == x;
        }
        DistinctConcat([page[0]], u);
      }
    }
  }

  /** Filtering a page with distinct ids against an accumulation with distinct
      ids and appending the survivors keeps the ids distinct. */
  lemma AppendUnseenDistinct(acc: seq<SandboxInfo>, page: seq<SandboxInfo>)
    requires DistinctIds(acc) && DistinctIds(page)
    ensures DistinctIds(acc + Unseen(acc, page))
  {
    UnseenDistinct(acc, page);
    DistinctConcat(acc, Unseen(acc, page));
  }

  /** Decoding keeps ids in place, so it keeps them distinct. */
  lemma DecodeKeepsDistinct(ws: seq<WireSandbox>)
    requires DistinctWireIds(ws) && DecodeAll(ws).Success?
    ensures DistinctIds(DecodeAll(ws).value)
  {
    var xs := DecodeAll(ws).value;
    forall i, j | 0 <= i < j < |xs| ensures xs[i].id != xs[j].id {
      assert Success(xs[i]) == InfoOf(ws[i]) && Success(xs[j]) == InfoOf(ws[j]);
    }
  }

  /** The filter does not dedupe within a page: a page that repeats an id keeps
      both records. */
  lemma UnseenKeepsRepeatWithinPage(x: SandboxInfo)
    ensures Unseen([], [x, x]) == [x, x]
    ensures !DistinctIds(Unseen([], [x, x]))
  {
    assert Ids([]) == [];
    assert [x, x][1..] == [x];
    assert [x][1..] == [];
  }

  /** The response built once the loop stops: `nextPage` is the server's cursor
      when the limit was reached and null otherwise. */
  function Finish(opts: ListOpts, all: seq<SandboxInfo>, totalCount: int, currentPage: int,
                  nextPage: Option<int>): (r: ListResponse)
    ensures r.sandboxes == all && r.totalCount == totalCount
    ensures r.hasMore <==> totalCount > |all|
    ensures |all| < Limit(opts) ==> r.pagination.nextPage.None?
    ensures |all| >= Limit(opts) ==> r.pagination.nextPage == nextPage
    ensures r.pagination.currentPage == currentPage && r.pagination.pageSize == PageSize(opts)
  {
    ListResponse(all, totalCount > |all|, totalCount,
                 Pagination(currentPage, if |all| >= Limit(opts) then nextPage else None, PageSize(opts)))
  }

  /** A cursor the loop continues with: present and not 0. */
  predicate Truthy(p: Option<int>) {
    p.Some? && p.value != 0
  }

  /** Reference definition of the loop: fetch page `page` with `acc` accumulated,
      with at most `fuel` fetches left. */
  function Run(opts: ListOpts, server: ListQuery -> Transport<WirePage>, page: int,
               acc: seq<SandboxInfo>, fuel: nat): Result<ListResponse, Error>
    decreases fuel
  {
    if fuel == 0 then Failure(PageBudgetExhausted)
    else match Handle(server(QueryFor(opts, page)), ListContext)
      case Failure(e) => Failure(e)
      case Success(info) =>
        match DecodeAll(info.sandboxes)
        case Failure(e) => Failure(e)
        case Success(infos) =>
          var all := acc + Unseen(acc, infos);
          if !Truthy(info.next_page) || |all| >= Limit(opts) then
            Success(Finish(opts, all, info.total_records, page, info.next_page))
          else
            Run(opts, server, info.next_page.value, all, fuel - 1)
  }

  /** `list(opts)` with at most `fuel` page fetches. */
  function ListSpec(opts: ListOpts, server: ListQuery -> Transport<WirePage>, fuel: nat): Result<ListResponse, Error> {
    Run(opts, server, FirstPage(opts), [], fuel)
  }

  /** The accumulation only grows: what was accumulated is a prefix of the
      result. */
  lemma {:induction false} RunExtends(opts: ListOpts, server: ListQuery -> Transport<WirePage>, page: int,
                                      acc: seq<SandboxInfo>, fuel: nat)
    ensures var r := Run(opts, server, page, acc, fuel);
      r.Success? ==> acc <= r.value.sandboxes
    decreases fuel
  {
    if fuel > 0 && server(QueryFor(opts, page)).Some? {
      var info := server(QueryFor(opts, page)).value;
      if DecodeAll(info.sandboxes).Success? {
        var all := acc + Unseen(acc, DecodeAll(info.sandboxes).value);
        if Truthy(info.next_page) && |all| < Limit(opts) {
          RunExtends(opts, server, info.next_page.value, all, fuel - 1);
        }
      }
    }
  }

  /** `x` is the decoding of a record the server returns for some query. */
  ghost predicate FromServer(server: ListQuery -> Transport<WirePage>, x: SandboxInfo) {
    exists q, k :: server(q).Some? && 0 <= k < |server(q).value.sandboxes| &&
                   InfoOf(server(q).value.sandboxes[k]) == Success(x)
  }

  /** Every record the loop appends was decoded from a page the server returned. */
  lemma {:induction false} RunRecordsFromServer(opts: ListOpts, server: ListQuery -> Transport<WirePage>, page: int,
                                                acc: seq<SandboxInfo>, fuel: nat)
    requires forall x :: x in acc ==> FromServer(server, x)
    ensures var r := Run(opts, server, page, acc, fuel);
      r.Success? ==> forall x :: x in r.value.sandboxes ==> FromServer(server, x)
    decreases fuel
  {
    if fuel > 0 && server(QueryFor(opts, page)).Some? {
      var q := QueryFor(opts, page);
      var info := server(q).value;
      if DecodeAll(info.sandboxes).Success? {
        var infos := DecodeAll(info.sandboxes).value;
        var all := acc + Unseen(acc, infos);
        forall x | x in all ensures FromServer(server, x) {
          if x !in acc {
            var k :| 0 <= k < |infos| && infos[k] == x;
            assert InfoOf(server(q).value.sandboxes[k]) == Success(x);
          }
        }
        if Truthy(info.next_page) && |all| < Limit(opts) {
          RunRecordsFromServer(opts, server, info.next_page.value, all, fuel - 1);
        }
      }
    }
  }

  /** A record with an invalid privacy code on any page the loop fetches fails
      the whole call, whatever was accumulated before. */
  lemma InvalidPrivacyFailsList(opts: ListOpts, server: ListQuery -> Transport<WirePage>, page: int,
                                acc: seq<SandboxInfo>, fuel: nat, k: nat)
    requires fuel > 0
    requires server(QueryFor(opts, page)).Some?
    requires var ws := server(QueryFor(opts, page)).value.sandboxes;
      k < |ws| && !(0 <= ws[k].privacy <= 2)
    ensures Run(opts, server, page, acc, fuel).Failure?
    ensures Run(opts, server, page, acc, fuel).error.InvalidPrivacyNumber?
  {
    var ws := server(QueryFor(opts, page)).value.sandboxes;
    assert !InfoOf(ws[k]).Success?;
  }

  /** One step of the loop that goes on to the next page. */
  lemma RunContinues(opts: ListOpts, server: ListQuery -> Transport<WirePage>, page: int,
                     acc: seq<SandboxInfo>, fuel: nat, info: WirePage, infos: seq<SandboxInfo>)
    requires fuel > 0 && server(QueryFor(opts, page)) == Some(info)
    requires DecodeAll(info.sandboxes) == Success(infos)
    requires Truthy(info.next_page) && |acc + Unseen(acc, infos)| < Limit(opts)
    ensures Run(opts, server, page, acc, fuel) ==
            Run(opts, server, info.next_page.value, acc + Unseen(acc, infos), fuel - 1)
  {
  }

  /** One step of the loop that stops. */
  lemma RunStops(opts: ListOpts, server: ListQuery -> Transport<WirePage>, page: int,
                 acc: seq<SandboxInfo>, fuel: nat, info: WirePage, infos: seq<SandboxInfo>)
    requires fuel > 0 && server(QueryFor(opts, page)) == Some(info)
    requires DecodeAll(info.sandboxes) == Success(infos)
    requires !Truthy(info.next_page) || |acc + Unseen(acc, infos)| >= Limit(opts)
    ensures Run(opts, server, page, acc, fuel) ==
            Success(Finish(opts, acc + Unseen(acc, infos), info.total_records, page, info.next_page))
  {
  }

  /** Decoding two valid records. */
  lemma DecodePair(a: WireSandbox, b: WireSandbox)
    requires InfoOf(a).Success? && InfoOf(b).Success?
    ensures DecodeAll([a, b]) == Success([InfoOf(a).value, InfoOf(b).value])
  {
    var ws := [a, b];
    assert forall i :: 0 <= i < |ws| ==> InfoOf(ws[i]).Success?;
    var d := DecodeAll(ws).value;
    assert Success(d[0]) == InfoOf(a) && Success(d[1]) == InfoOf(b);
    assert d == [InfoOf(a).value, InfoOf(b).value];
  }

  /** Against nothing accumulated, every record of a page is unseen. */
  lemma UnseenFromEmpty(x: SandboxInfo, y: SandboxInfo)
    ensures Unseen([], [x, y]) == [x, y]
  {
    assert Ids([]) == [];
    assert [x, y][1..] == [y];
    assert [y][1..] == [];
  }

  /** Of a page `[y, z]` after `[x, y]`, only `z` is unseen. */
  lemma UnseenAfterOverlap(x: SandboxInfo, y: SandboxInfo, z: SandboxInfo)
    requires z.id != x.id && z.id != y.id
    ensures Unseen([x, y], [y, z]) == [z]
  {
    assert Ids([x, y]) == [x.id, y.id];
    assert [y, z][1..] == [z];
    assert [z][1..] == [];
  }

  /** A record that appears again on the next page is listed once; the listing
      ends at the page without a cursor, below the limit, with no next page. */
  lemma CrossPageRepeatListedOnce(server: ListQuery -> Transport<WirePage>,
                                  a: WireSandbox, b: WireSandbox, c: WireSandbox)
    requires a.id != b.id && b.id != c.id && a.id != c.id
    requires a.privacy == 0 && b.privacy == 1 && c.privacy == 2
    requires server(ListQuery(None, 1, 50, None, None, None)) == Some(WirePage([a, b], 3, Some(2)))
    requires server(ListQuery(None, 2, 50, None, None, None)) == Some(WirePage([b, c], 3, None))
    ensures var r := ListSpec(ListOpts(None, None, None, None, None, None), server, 2);
      && r.Success?
      && r.value.sandboxes == [InfoOf(a).value, InfoOf(b).value, InfoOf(c).value]
      && !r.value.hasMore
      && r.value.pagination == Pagination(2, None, 50)
  {
    var opts := ListOpts(None, None, None, None, None, None);
    var xa := InfoOf(a).value;
    var xb := InfoOf(b).value;
    var xc := InfoOf(c).value;
    DecodePair(a, b);
    DecodePair(b, c);
    UnseenFromEmpty(xa, xb);
    UnseenAfterOverlap(xa, xb, xc);
    var first: seq<SandboxInfo> := [];
    var second := [xa, xb];
    var third := [xa, xb, xc];
    assert first + Unseen(first, [xa, xb]) == second;
    assert second + Unseen(second, [xb, xc]) == third;
    RunContinues(opts, server, 1, first, 2, WirePage([a, b], 3, Some(2)), [xa, xb]);
    RunStops(opts, server, 2, second, 1, WirePage([b, c], 3, None), [xb, xc]);
    var r := Finish(opts, third, 3, 2, None);
    assert ListSpec(opts, server, 2) == Success(r);
  }

  /** Reaching the limit stops the loop without truncating the page, and the
      server's cursor is returned rather than suppressed. */
  lemma LimitReachedKeepsWholePage(server: ListQuery -> Transport<WirePage>, a: WireSandbox, b: WireSandbox)
    requires a.id != b.id && a.privacy == 0 && b.privacy == 0
    requires server(ListQuery(None, 1, 1, None, None, None)) == Some(WirePage([a, b], 5, Some(2)))
    ensures var r := ListSpec(ListOpts(None, None, None, None, Some(1), None), server, 1);
      && r.Success?
      && |r.value.sandboxes| == 2
      && r.value.hasMore
      && r.value.pagination == Pagination(1, Some(2), 1)
  {
    var opts := ListOpts(None, None, None, None, Some(1), None);
    var xa := InfoOf(a).value;
    var xb := InfoOf(b).value;
    DecodePair(a, b);
    assert Unseen([], [xa, xb]) == [xa, xb] by {
      assert Ids([]) == [];
      assert [xa, xb][1..] == [xb];
      assert [xb][1..] == [];
    }
    assert [] + [xa, xb] == [xa, xb];
    RunStops(opts, server, 1, [], 1, WirePage([a, b], 5, Some(2)), [xa, xb]);
  }

  /** `list(opts)`: the paginated accumulation loop. */
  method List(opts: ListOpts, server: ListQuery -> Transport<WirePage>, fuel: nat)
    returns (r: Result<ListResponse, Error>)
    ensures r == ListSpec(opts, server, fuel)
    ensures r.Success? ==> r.value.hasMore == (r.value.totalCount > |r.value.sandboxes|)
    ensures r.Success? && |r.value.sandboxes| < Limit(opts) ==> r.value.pagination.nextPage.None?
    ensures r.Success? ==> r.value.pagination.pageSize == PageSize(opts)
    ensures r.Success? && PagesDistinct(server) ==> DistinctIds(r.value.sandboxes)
  {
    var limit := Limit(opts);
    var allSandboxes: seq<SandboxInfo> := [];
    var currentPage := FirstPage(opts);
    var pageSize := PageSize(opts);
    var totalCount := 0;
    var nextPage: Option<int> := None;
    var fetches: nat := 0;
    while fetches < fuel
      invariant fetches <= fuel
      invariant ListSpec(opts, server, fuel) == Run(opts, server, currentPage, allSandboxes, fuel - fetches)
      invariant PagesDistinct(server) ==> DistinctIds(allSandboxes)
      decreases fuel - fetches
    {
      var response := server(ListQuery(opts.tags, currentPage, pageSize, opts.orderBy, opts.direction, opts.status));
      if response.None? {
        return Failure(RequestFailed(ListContext));
      }
      var info := response.value;
      totalCount := info.total_records;
      nextPage := info.next_page;
      var sandboxes := DecodeAll(info.sandboxes);
      if sandboxes.Failure? {
        return Failure(sandboxes.error);
      }
      var newSandboxes := Unseen(allSandboxes, sandboxes.value);
      if PagesDistinct(server) {
        DecodeKeepsDistinct(info.sandboxes);
        AppendUnseenDistinct(allSandboxes, sandboxes.value);
      }
      allSandboxes := allSandboxes + newSandboxes;
      if !Truthy(nextPage) || |allSandboxes| >= limit {
        return Success(ListResponse(allSandboxes, totalCount > |allSandboxes|, totalCount,
          Pagination(currentPage, if |allSandboxes| >= limit then nextPage else None, pageSize)));
      }
      currentPage := nextPage.value;
      fetches := fetches + 1;
    }
    return Failure(PageBudgetExhausted);
  }
}
