/** Complete paginated searches: which reply sequences are accepted and what they then add up to. */
module Pagination {
  import opened Wrappers
  import opened Histories
  import opened Exchanges

  const PAGE_SIZE := 50

  datatype SearchPage = SearchPage(total: nat, count: nat, returnedEnd: nat, data: seq<Entry>)

  // ---------------------------------------------------------------- one page

  /** How the target describes the rows `data`, which start at position `start` of `total`. */
  function PageOf(start: nat, total: nat, data: seq<Entry>): Page {
    if total == 0 then Page(0, 0, ZeroResults, None)
    else if data == [] then Page(total, 0, Unreadable, Some(data))
    else Page(total, |data|, Range(start, start + |data| - 1, total), Some(data))
  }

  function StatusOf(total: nat, count: nat): nat {
    if count == total then OK else PARTIAL_CONTENT
  }

  /** The number of rows on the page at `start`: a full page, or all that is left. */
  function PageLength(start: nat, total: nat): nat
    requires start <= total
  {
    if total - start < PAGE_SIZE then total - start else PAGE_SIZE
  }

  ghost predicate Conforms(page: Page, start: nat) {
    && page.total <= U64_MAX
    && if page.total == 0 then start == 0 && page == PageOf(0, 0, [])
       else
         && start < page.total && page.data.Some?
         && page == PageOf(start, page.total, page.data.value)
         && |page.data.value| == PageLength(start, page.total)
  }

  /** Accepts exactly the pages that hold all rows asked for, or all that are left. */
  function ParsePage(page: Page, start: nat, end: nat): (r: Result<SearchPage, Failure>)
    requires end == start + PAGE_SIZE - 1
    ensures r.Ok? <==> Conforms(page, start)
    ensures r.Err? ==> r.error == SearchPagination
    ensures r.Ok? ==> r.value.total == page.total && r.value.count == page.count
    ensures r.Ok? && page.total > 0 ==> page.data == Some(r.value.data) && r.value.returnedEnd + 1 == start + page.count
    ensures r.Ok? && page.total == 0 ==> r.value.data == []
  {
    if page.total > U64_MAX || page.count > U64_MAX then Err(SearchPagination)
    else if page.total == 0 then
      if start != 0 || page.count != 0 || page.range != ZeroResults || page.data.Some? then Err(SearchPagination)
      else Ok(SearchPage(page.total, page.count, 0, []))
    else if page.data.None? then Err(SearchPagination)
    else if page.count == 0 || page.count != |page.data.value| || page.count > page.total then Err(SearchPagination)
    else if !page.range.Range? then Err(SearchPagination)
    else
      var Range(first, last, total) := page.range;
      if total != page.total || first != start || last < first || last > end || last >= page.total
         || last - first + 1 != page.count || (last != end && last != page.total - 1)
      then Err(SearchPagination)
      else Ok(SearchPage(page.total, page.count, last, page.data.value))
  }

  // ---------------------------------------------------------------- all pages

  /** Exchange `x` asked for the page at `start` and got exactly the rows `data`, out of `total`. */
  ghost predicate Answered(x: Exchange, query: Query, start: nat, total: nat, data: seq<Entry>) {
    && x.request == Search(query, start, start + PAGE_SIZE - 1)
    && x.response == Reply(StatusOf(total, |data|), Listing(PageOf(start, total, data)))
  }

  /** The rows an exchange brought. */
  function DataOf(x: Exchange): seq<Entry> {
    if x.response.Reply? && x.response.body.Listing? && x.response.body.page.data.Some?
    then x.response.body.page.data.value else []
  }

  /**
   The exchanges after `before` are page requests whose accepted ranges tile the first |rows| of `total` positions.
   */
  ghost predicate Fetched(before: Log, after: Log, query: Query, rows: seq<Entry>, total: nat)
    decreases after
  {
    && after.Then?
    && var data := DataOf(after.event);
    && |data| <= |rows| <= total && NotARow !in data
    && var start := |rows| - |data|;
    && rows[start..] == data && |data| == PageLength(start, total) && (start < total || total == 0)
    && Answered(after.event, query, start, total, data)
    && (if start == 0 then after.past == before else Fetched(before, after.past, query, rows[..start], total))
  }

  ghost predicate Complete(before: Log, after: Log, query: Query, rows: seq<Entry>) {
    Fetched(before, after, query, rows, |rows|)
  }

  /** As long as nothing is changed, the target answers this query from one fixed list. */
  ghost predicate Serves(env: Env, before: Log, query: Query, list: seq<Entry>) {
    forall log, start, end {:trigger env.answer(log, Search(query, start, end))} ::
      Reads(env, before, log) ==> env.answer(log, Search(query, start, end)) == PageReply(list, start, end)
  }

  function PageReply(list: seq<Entry>, start: nat, end: nat): Response {
    if |list| == 0 then Reply(OK, Listing(PageOf(0, 0, [])))
    else if start >= |list| || end < start then Reply(BAD_REQUEST, Other)
    else
      var data := if end < |list| then list[start..end + 1] else list[start..];
      Reply(StatusOf(|list|, |data|), Listing(PageOf(start, |list|, data)))
  }

  /** The rows collected so far are what the target would serve them from, if it serves from one list. */
  ghost predicate Agrees(env: Env, before: Log, query: Query, rows: seq<Entry>, expected: Option<nat>) {
    forall list {:trigger Serves(env, before, query, list)} :: Serves(env, before, query, list) ==>
      rows <= list && (expected.Some? ==> expected.value == |list|)
  }

  /** A list small enough for every position on its pages to be representable, without malformed rows. */
  ghost predicate Servable(list: seq<Entry>) {
    NotARow !in list && |list| + PAGE_SIZE <= U64_MAX
  }

  /** What a reply must be for the page at `start` to be accepted. */
  ghost predicate Acceptable(response: Response, start: nat, expected: Option<nat>) {
    && response.Reply? && response.body.Listing?
    && var page := response.body.page;
    && Conforms(page, start)
    && response.status == StatusOf(page.total, page.count)
    && (expected.Some? ==> expected.value == page.total)
    && (page.data.Some? ==> NotARow !in page.data.value)
  }

  /** Fetches and validates the page at `start`. */
  method FetchPage(env: Env, w: World, query: Query, start: nat, expected: Option<nat>)
    returns (r: Result<SearchPage, Failure>, next: World)
    ensures Reads(env, w.log, next.log) && w.looks <= next.looks
    ensures r.Ok? <==> !Ended(env, w.looks)
                       && Acceptable(env.answer(w.log, Search(query, start, start + PAGE_SIZE - 1)), start, expected)
    ensures r.Ok? ==> start <= r.value.total <= U64_MAX && |r.value.data| == PageLength(start, r.value.total)
    ensures r.Ok? ==> if r.value.total == 0 then start == 0 else r.value.returnedEnd + 1 == start + |r.value.data|
    ensures r.Ok? ==> next.log.Then? && next.log.past == w.log
                      && Answered(next.log.event, query, start, r.value.total, r.value.data)
                      && next.log.event.response == env.answer(w.log, next.log.event.request)
    ensures r.Err? ==> Technical(r.error) || r.error == SearchPagination
    ensures r.Ok? ==> NotARow !in r.value.data && (expected.Some? ==> expected.value == r.value.total)
  {
    var end := start + PAGE_SIZE - 1;
    var (reply, sent) := Send(env, w, Search(query, start, end));
    next := sent;
    if reply.Err? {
      return Err(reply.error), next;
    }
    if !reply.value.body.Listing? {
      return Err(SearchPagination), next;
    }
    var parsed := ParsePage(reply.value.body.page, start, end);
    if parsed.Err? {
      return Err(SearchPagination), next;
    }
    var page := parsed.value;
    if reply.value.status != StatusOf(page.total, page.count) {
      return Err(SearchPagination), next;
    }
    if expected.Some? && expected.value != page.total {
      return Err(SearchPagination), next;
    }
    if NotARow in page.data {
      return Err(SearchPagination), next;
    }
    return Ok(page), next;
  }

  /** Between two pages: full pages only, tiling what has been collected, with more to come. */
  ghost predicate Underway(env: Env, before: Log, log: Log, query: Query, rows: seq<Entry>, expected: Option<nat>) {
    && Reads(env, before, log)
    && (match expected
        case None => log == before && rows == []
        case Some(total) => 0 < |rows| < total <= U64_MAX && Fetched(before, log, query, rows, total))
    && Agrees(env, before, query, rows, expected)
  }

  /**
   Fetches every page of a search. Whatever the target replies, success means the accepted ranges tile the
   whole result; and a target with one fixed list has exactly that list returned.
   */
  method SearchAllPages(env: Env, w: World, query: Query) returns (r: Result<seq<Entry>, Failure>, next: World)
    ensures Reads(env, w.log, next.log) && w.looks <= next.looks
    ensures r.Ok? ==> Complete(w.log, next.log, query, r.value)
    ensures r.Err? ==> Technical(r.error) || r.error == SearchPagination
    ensures Calm(env) ==> forall list :: Serves(env, w.log, query, list) && Servable(list) ==> r == Ok(list)
  {
    var rows: seq<Entry> := [];
    var start := 0;
    var expected: Option<nat> := None;
    next := w;
    while true
      invariant w.looks <= next.looks && start == |rows| && Underway(env, w.log, next.log, query, rows, expected)
      decreases U64_MAX - start
    {
      if start + PAGE_SIZE - 1 > U64_MAX {
        return Err(SearchPagination), next;
      }
      ghost var earlier := next;
      var parsed;
      parsed, next := FetchPage(env, next, query, start, expected);
      ReadsTransitive(env, w.log, earlier.log, next.log);
      if parsed.Err? {
        ServedIsAccepted(env, w.log, earlier, query, rows, expected);
        return Err(parsed.error), next;
      }
      var page := parsed.value;
      Advances(env, w.log, earlier.log, next.log, query, rows, expected, page.data, page.total);
      expected := Some(page.total);
      rows := rows + page.data;
      if page.total == 0 {
        return Ok(rows), next;
      }
      // The length check that follows each page in the code can never fire, nor can its addition overflow.
      assert |rows| == page.returnedEnd + 1 <= U64_MAX;
      if |rows| == page.total {
        return Ok(rows), next;
      }
      start := page.returnedEnd + 1;
    }
  }

  lemma Advances(env: Env, before: Log, past: Log, after: Log, query: Query, rows: seq<Entry>, expected: Option<nat>,
                 data: seq<Entry>, total: nat)
    requires Underway(env, before, past, query, rows, expected) && Reads(env, before, after)
    requires |rows| <= total <= U64_MAX && |data| == PageLength(|rows|, total) && NotARow !in data
    requires (total == 0 ==> rows == []) && (expected.Some? ==> expected.value == total)
    requires after.Then? && after.past == past && Answered(after.event, query, |rows|, total, data)
    requires after.event.response == env.answer(past, after.event.request)
    ensures Fetched(before, after, query, rows + data, total) && Agrees(env, before, query, rows + data, Some(total))
    ensures |rows + data| < total ==> Underway(env, before, after, query, rows + data, Some(total))
    ensures |rows + data| == total ==> forall list :: Serves(env, before, query, list) ==> list == rows + data
  {
    PageExtends(before, past, after, query, rows, data, total);
    PageAgrees(env, before, past, query, rows, expected, after.event, data, total);
  }

  lemma ServedIsAccepted(env: Env, before: Log, w: World, query: Query, rows: seq<Entry>, expected: Option<nat>)
    requires Underway(env, before, w.log, query, rows, expected)
    ensures forall list :: Serves(env, before, query, list) && Servable(list) ==>
              Acceptable(env.answer(w.log, Search(query, |rows|, |rows| + PAGE_SIZE - 1)), |rows|, expected)
  {
    forall list | Serves(env, before, query, list) && Servable(list)
      ensures Acceptable(env.answer(w.log, Search(query, |rows|, |rows| + PAGE_SIZE - 1)), |rows|, expected)
    {
      var end := |rows| + PAGE_SIZE - 1;
      assert env.answer(w.log, Search(query, |rows|, end)) == PageReply(list, |rows|, end);
      assert list != [] ==> |rows| < |list|;
    }
  }

  lemma PageAgrees(env: Env, before: Log, past: Log, query: Query, rows: seq<Entry>, expected: Option<nat>,
                   x: Exchange, data: seq<Entry>, total: nat)
    requires Reads(env, before, past) && Agrees(env, before, query, rows, expected)
    requires |rows| <= total && |data| == PageLength(|rows|, total)
    requires Answered(x, query, |rows|, total, data) && x.response == env.answer(past, x.request)
    ensures Agrees(env, before, query, rows + data, Some(total))
  {
    forall list | Serves(env, before, query, list)
      ensures rows + data <= list && total == |list|
    {
      assert env.answer(past, x.request) == PageReply(list, |rows|, |rows| + PAGE_SIZE - 1);
    }
  }

  lemma AnsweredData(x: Exchange, query: Query, start: nat, total: nat, data: seq<Entry>)
    requires Answered(x, query, start, total, data) && start + |data| <= total
    ensures DataOf(x) == data
  {
  }

  /** Adding an accepted page to a tiling gives a tiling. */
  lemma PageExtends(before: Log, past: Log, after: Log, query: Query, rows: seq<Entry>, data: seq<Entry>, total: nat)
    requires if rows == [] then past == before else |rows| < total && Fetched(before, past, query, rows, total)
    requires |rows| + |data| <= total && |data| == PageLength(|rows|, total) && NotARow !in data
    requires after.Then? && after.past == past && Answered(after.event, query, |rows|, total, data)
    ensures Fetched(before, after, query, rows + data, total)
  {
    hide Answered, DataOf;
    AnsweredData(after.event, query, |rows|, total, data);
    assert (rows + data)[|rows|..] == data && (rows + data)[..|rows|] == rows;
  }

  /** The last page starts at 50 times the number of pages before it. */
  lemma {:induction false} EarlierPagesAreFull(before: Log, after: Log, query: Query, rows: seq<Entry>, total: nat)
    requires Fetched(before, after, query, rows, total)
    ensures |rows| - |DataOf(after.event)| == PAGE_SIZE * (Length(after) - Length(before) - 1)
    decreases after
  {
    hide Answered;
    var start := |rows| - |DataOf(after.event)|;
    if start > 0 {
      EarlierPagesAreFull(before, after.past, query, rows[..start], total);
    }
  }

  /** A complete search over n rows took max(1, n / 50 rounded up) requests. */
  lemma RequestCount(before: Log, after: Log, query: Query, rows: seq<Entry>)
    requires Complete(before, after, query, rows)
    ensures Length(after) == Length(before) + if |rows| <= PAGE_SIZE then 1 else (|rows| + PAGE_SIZE - 1) / PAGE_SIZE
  {
    hide Answered;
    EarlierPagesAreFull(before, after, query, rows, |rows|);
  }

  /** No gap and no overlap: every page but the last holds exactly 50 rows, at a multiple of 50. */
  lemma {:induction false} PagesTile(before: Log, after: Log, query: Query, rows: seq<Entry>, total: nat, k: nat)
    requires Fetched(before, after, query, rows, total) && PAGE_SIZE * k < |rows|
    ensures exists log: Log :: Prefix(log, after) && IsPage(log, query, rows, total, k)
    decreases after
  {
    hide Answered;
    EarlierPagesAreFull(before, after, query, rows, total);
    var start := |rows| - |DataOf(after.event)|;
    if PAGE_SIZE * k == start {
      assert Prefix(after, after) && rows[start..] == rows[start..PageEnd(rows, k)];
      assert IsPage(after, query, rows, total, k);
    } else {
      assert PAGE_SIZE * (k + 1) <= start;
      PagesTile(before, after.past, query, rows[..start], total, k);
      var log: Log :| Prefix(log, after.past) && IsPage(log, query, rows[..start], total, k);
      assert PageEnd(rows[..start], k) == PAGE_SIZE * (k + 1) == PageEnd(rows, k);
      assert rows[..start][PAGE_SIZE * k..PAGE_SIZE * (k + 1)] == rows[PAGE_SIZE * k..PAGE_SIZE * (k + 1)];
      assert Prefix(log, after) && IsPage(log, query, rows, total, k);
    }
  }

  function PageEnd(rows: seq<Entry>, k: nat): nat {
    if PAGE_SIZE * (k + 1) < |rows| then PAGE_SIZE * (k + 1) else |rows|
  }

  /** The newest exchange of `log` brought rows 50k up to 50(k + 1), or up to the end. */
  ghost predicate IsPage(log: Log, query: Query, rows: seq<Entry>, total: nat, k: nat)
    requires PAGE_SIZE * k < |rows|
  {
    log.Then? && Answered(log.event, query, PAGE_SIZE * k, total, rows[PAGE_SIZE * k..PageEnd(rows, k)])
  }
}
