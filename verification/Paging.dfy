/** Page tokens and cursors: following tokens from the start visits every lasting row once, whatever
    happens to the table in between. */
module Paging {
  import opened Ipv4
  import opened Keys
  import opened Rows

  // ---- One page ----

  datatype PageOf = PageOf(items: seq<Id>, next: Option<Id>)

  /** No limit means fifty; otherwise one to a hundred. */
  function PageSize(limit: int): (r: Option<nat>)
    ensures r.Some? ==> 1 <= r.value <= 100
    ensures r.None? <==> limit < 0 || limit > 100
  {
    if limit == 0 then Some(50) else if limit < 1 || limit > 100 then None else Some(limit)
  }

  /** One row more than the page is read, to know whether there is a next page. */
  function ListPage(rows: set<Id>, after: int, size: nat): PageOf
    requires size > 0
  {
    var found := Page(rows, after, size + 1);
    if |found| <= size then PageOf(found, None) else PageOf(found[..size], Some(found[size - 1]))
  }

  lemma ListPageIs(rows: set<Id>, after: int, size: nat)
    requires size > 0
    ensures
      var p := ListPage(rows, after, size);
      && Ascending(p.items) && |p.items| <= size && (forall x :: x in p.items ==> x in rows && x > after)
      && (p.next.None? ==> forall x :: x in rows && x > after ==> x in p.items)
      && (p.next.Some? ==> |p.items| == size && p.next.value == p.items[size - 1] &&
                           forall x :: x in rows && after < x <= p.next.value ==> x in p.items)
  {
    PageIs(rows, after, size + 1);
    var found := Page(rows, after, size + 1);
    if |found| > size {
      forall x | x in found[..size] ensures x in found {}
      forall x | x in rows && after < x <= found[size - 1] ensures x in found[..size] {
        var k :| 0 <= k < |found| && found[k] == x;
        assert k < size;
        assert found[..size][k] == x;
      }
    }
  }

  // ---- A walk ----

  /** One request of a walk: the rows there are when it is served, and the limit it asks for. */
  datatype Request = Request(rows: set<Id>, limit: int)

  predicate Served(requests: seq<Request>) {
    forall n :: 0 <= n < |requests| ==> PageSize(requests[n].limit).Some?
  }

  /** What a client that follows the tokens is shown, page after page. */
  function Walk(requests: seq<Request>, after: int): seq<Id>
    requires Served(requests)
  {
    if requests == [] then []
    else
      var p := ListPage(requests[0].rows, after, PageSize(requests[0].limit).value);
      p.items + if p.next.None? then [] else Walk(requests[1..], p.next.value)
  }

  /** Whether the walk came to a page without a next token. */
  predicate Ends(requests: seq<Request>, after: int)
    requires Served(requests)
  {
    if requests == [] then false
    else
      var p := ListPage(requests[0].rows, after, PageSize(requests[0].limit).value);
      p.next.None? || Ends(requests[1..], p.next.value)
  }

  lemma JoinAscending(a: seq<Id>, b: seq<Id>, between: int)
    requires Ascending(a) && Ascending(b)
    requires (forall x :: x in a ==> x <= between) && (forall x :: x in b ==> x > between)
    ensures Ascending(a + b)
  {
    forall i, j | 0 <= i < j < |a + b| ensures (a + b)[i] < (a + b)[j] {
      assert i < |a| ==> a[i] in a;
      assert j >= |a| ==> b[j - |a|] in b;
    }
  }

  /** Strictly increasing ids, hence no row twice. */
  lemma {:induction false} WalkAscends(requests: seq<Request>, after: int)
    requires Served(requests)
    ensures Ascending(Walk(requests, after)) && forall x :: x in Walk(requests, after) ==> x > after
  {
    if requests != [] {
      var r, rest := requests[0], requests[1..];
      var p := ListPage(r.rows, after, PageSize(r.limit).value);
      ListPageIs(r.rows, after, PageSize(r.limit).value);
      if p.next.Some? {
        WalkAscends(rest, p.next.value);
        assert forall x :: x in p.items ==> x <= p.next.value;
        JoinAscending(p.items, Walk(rest, p.next.value), p.next.value);
      }
    }
  }

  /** The same walk, page by page. */
  function Pages(requests: seq<Request>, after: int): seq<seq<Id>>
    requires Served(requests)
  {
    if requests == [] then []
    else
      var p := ListPage(requests[0].rows, after, PageSize(requests[0].limit).value);
      [p.items] + if p.next.None? then [] else Pages(requests[1..], p.next.value)
  }

  function Joined(pages: seq<seq<Id>>): seq<Id> {
    if pages == [] then [] else pages[0] + Joined(pages[1..])
  }

  /** Page for page, only rows that were there when that page was read, and no more than it asked for. */
  ghost predicate ShowsOwnRows(pages: seq<seq<Id>>, requests: seq<Request>)
    requires Served(requests)
  {
    |pages| <= |requests| && forall n :: 0 <= n < |pages| ==>
      |pages[n]| <= PageSize(requests[n].limit).value && forall x :: x in pages[n] ==> x in requests[n].rows
  }

  lemma {:induction false} WalkShowsRows(requests: seq<Request>, after: int)
    requires Served(requests)
    ensures Walk(requests, after) == Joined(Pages(requests, after)) && ShowsOwnRows(Pages(requests, after), requests)
  {
    if requests != [] {
      var r, rest := requests[0], requests[1..];
      var p := ListPage(r.rows, after, PageSize(r.limit).value);
      ListPageIs(r.rows, after, PageSize(r.limit).value);
      if p.next.Some? {
        WalkShowsRows(rest, p.next.value);
        MorePages(p.items, Pages(rest, p.next.value), requests);
      } else {
        assert Joined([p.items]) == p.items + Joined([]);
      }
    }
  }

  lemma MorePages(page: seq<Id>, pages: seq<seq<Id>>, requests: seq<Request>)
    requires Served(requests) && requests != [] && Served(requests[1..]) && ShowsOwnRows(pages, requests[1..])
    requires |page| <= PageSize(requests[0].limit).value && forall x :: x in page ==> x in requests[0].rows
    ensures ShowsOwnRows([page] + pages, requests) && Joined([page] + pages) == page + Joined(pages)
  {
    assert ([page] + pages)[1..] == pages;
    forall n | 0 < n <= |pages| ensures ([page] + pages)[n] == pages[n - 1] && requests[n] == requests[1..][n - 1] {}
  }

  /** A row that is there throughout is shown, whatever else comes and goes, for any page sizes. */
  lemma {:induction false} WalkIsComplete(requests: seq<Request>, after: int, x: Id)
    requires Served(requests) && Ends(requests, after) && x > after
    requires forall n :: 0 <= n < |requests| ==> x in requests[n].rows
    ensures x in Walk(requests, after)
  {
    var r, rest := requests[0], requests[1..];
    var p := ListPage(r.rows, after, PageSize(r.limit).value);
    ListPageIs(r.rows, after, PageSize(r.limit).value);
    assert x in r.rows;
    if p.next.Some? && x > p.next.value {
      WalkIsComplete(rest, p.next.value, x);
    }
  }

  ghost predicate OnlyAt(xs: seq<Id>, x: Id, k: nat) {
    k < |xs| && xs[k] == x && forall j :: 0 <= j < |xs| && xs[j] == x ==> j == k
  }

  ghost predicate Once(xs: seq<Id>, x: Id) {
    exists k :: OnlyAt(xs, x, k)
  }

  lemma AscendingOnce(xs: seq<Id>, x: Id)
    requires Ascending(xs) && x in xs
    ensures Once(xs, x)
  {
    var k :| 0 <= k < |xs| && xs[k] == x;
    forall j | 0 <= j < |xs| && xs[j] == x ensures j == k {}
    assert OnlyAt(xs, x, k);
  }

  /** From the empty cursor: exactly once. */
  lemma LastingRowsShownOnce(requests: seq<Request>, x: Id)
    requires Served(requests) && Ends(requests, -1) && forall n :: 0 <= n < |requests| ==> x in requests[n].rows
    ensures Once(Walk(requests, -1), x)
  {
    WalkIsComplete(requests, -1, x);
    WalkAscends(requests, -1);
    AscendingOnce(Walk(requests, -1), x);
  }

  // ---- The event stream ----

  datatype Entry = Entry(id: nat, event: Event)

  ghost predicate Chronological(log: seq<Entry>) {
    forall m, n :: 0 <= m < n < |log| ==> log[m].id < log[n].id
  }

  /** The entries after a cursor, oldest first. */
  function Since(log: seq<Entry>, cursor: nat): seq<Entry> {
    if log == [] then [] else (if log[0].id > cursor then [log[0]] else []) + Since(log[1..], cursor)
  }

  const BATCH: nat := 100

  function EventsAfter(log: seq<Entry>, cursor: nat): seq<Entry> {
    var all := Since(log, cursor);
    if |all| <= BATCH then all else all[..BATCH]
  }

  lemma {:induction false} SinceIsLate(log: seq<Entry>, cursor: nat)
    requires Chronological(log) && log != [] && log[0].id > cursor
    ensures Since(log, cursor) == log
  {
    if |log| > 1 {
      SinceIsLate(log[1..], cursor);
    } else {
      assert Since(log[1..], cursor) == [];
    }
  }

  /** The first entry after the cursor. */
  ghost predicate StartsAt(log: seq<Entry>, cursor: nat, k: nat) {
    k <= |log| && (k > 0 ==> log[k - 1].id <= cursor) && (k < |log| ==> log[k].id > cursor)
  }

  lemma {:induction false} SinceIsSuffix(log: seq<Entry>, cursor: nat) returns (k: nat)
    requires Chronological(log)
    ensures StartsAt(log, cursor, k) && Since(log, cursor) == log[k..]
  {
    if log == [] {
      k := 0;
    } else if log[0].id > cursor {
      SinceIsLate(log, cursor);
      k := 0;
    } else {
      var j := SinceIsSuffix(log[1..], cursor);
      k := j + 1;
    }
  }

  lemma OneStart(log: seq<Entry>, cursor: nat, j: nat, k: nat)
    requires Chronological(log) && StartsAt(log, cursor, j) && StartsAt(log, cursor, k)
    ensures j == k
  {}

  /** Emitted is exactly what lies between the starting cursor and the cursor. */
  ghost predicate Streamed(log: seq<Entry>, start: nat, emitted: seq<Entry>, cursor: nat) {
    && Since(log, start) == emitted + Since(log, cursor)
    && cursor == if emitted == [] then start else emitted[|emitted| - 1].id
  }

  /** Writes one batch, event by event, until the connection breaks after `writes` events in all. */
  method EmitBatch(events: seq<Entry>, sent: seq<Entry>, at: nat, writes: nat, ghost log: seq<Entry>,
                   ghost seen: seq<Entry>, ghost start: nat)
      returns (emitted: seq<Entry>, cursor: nat)
    requires Chronological(log) && seen <= log && events == EventsAfter(seen, at) &&
             Streamed(log, start, sent, at) && |sent| <= writes
    ensures Streamed(log, start, emitted, cursor) && |emitted| <= writes
    ensures |emitted| < writes ==> emitted == sent + events
  {
    emitted, cursor := sent, at;
    for j := 0 to |events|
      invariant emitted == sent + events[..j] && |emitted| <= writes
      invariant Streamed(log, start, emitted, cursor)
    {
      if |emitted| == writes {
        return;
      }
      PartStreams(log, seen, start, sent, at, j + 1);
      emitted, cursor := emitted + [events[j]], events[j].id;
      assert emitted == sent + events[..j + 1];
    }
  }

  /** All is emitted, or at least this many full batches. */
  ghost predicate KeepsUp(log: seq<Entry>, start: nat, emitted: seq<Entry>, polls: nat) {
    emitted == Since(log, start) || |emitted| >= BATCH * polls
  }

  lemma StillKeepsUp(log: seq<Entry>, start: nat, sent: seq<Entry>, at: nat, polls: nat)
    requires Streamed(log, start, sent, at) && KeepsUp(log, start, sent, polls)
    ensures KeepsUp(log, start, sent + EventsAfter(log, at), polls + 1)
  {
    var all := Since(log, at);
    if |all| <= BATCH {
      assert sent + all == Since(log, start);
    } else {
      assert |sent| < |Since(log, start)|;
    }
  }

  /** The cursor loop over successive states of an append-only log, until the connection breaks after
      `writes` events: what is emitted is, without gap or repetition, the entries after the starting
      cursor up to the one the cursor stands on, so a client that reconnects there misses nothing. The
      loop waits only when a poll found nothing; if that poll saw the whole log, all is emitted. */
  method StreamEvents(start: nat, polls: seq<seq<Entry>>, writes: nat, ghost log: seq<Entry>)
      returns (emitted: seq<Entry>, cursor: nat, waits: bool)
    requires Chronological(log) && forall n :: 0 <= n < |polls| ==> polls[n] <= log
    ensures Streamed(log, start, emitted, cursor) && |emitted| <= writes
    ensures waits ==> polls != [] && (polls[|polls| - 1] == log ==> emitted == Since(log, start))
    ensures |emitted| < writes && (forall n :: 0 <= n < |polls| ==> polls[n] == log) ==>
            KeepsUp(log, start, emitted, |polls|)
  {
    emitted, cursor, waits := [], start, false;
    assert Since(log, start) == [] + Since(log, start);
    for i := 0 to |polls|
      invariant Streamed(log, start, emitted, cursor) && |emitted| <= writes
      invariant waits ==> i > 0 && EventsAfter(polls[i - 1], cursor) == []
      invariant (forall n :: 0 <= n < i ==> polls[n] == log) ==> KeepsUp(log, start, emitted, i)
    {
      var events := EventsAfter(polls[i], cursor);
      ghost var up := KeepsUp(log, start, emitted, i);
      if up {
        StillKeepsUp(log, start, emitted, cursor, i);
      }
      waits := events == [];
      emitted, cursor := EmitBatch(events, emitted, cursor, writes, log, polls[i], start);
      if |emitted| == writes {
        return emitted, cursor, false;
      }
    }
    if waits {
      EmptyMeansCaughtUp(polls[|polls| - 1], cursor);
    }
  }

  /** Any front part of a batch streams on. */
  lemma PartStreams(log: seq<Entry>, seen: seq<Entry>, start: nat, emitted: seq<Entry>, cursor: nat, n: nat)
    requires Chronological(log) && seen <= log && Streamed(log, start, emitted, cursor) &&
             0 < n <= |EventsAfter(seen, cursor)|
    ensures
      var part := EventsAfter(seen, cursor)[..n];
      Streamed(log, start, emitted + part, part[n - 1].id)
  {
    var part := EventsAfter(seen, cursor)[..n];
    PartSplits(log, seen, cursor, part, n);
    var rest := Since(log, part[n - 1].id);
    assert emitted + (part + rest) == (emitted + part) + rest;
  }

  lemma SinceAt(log: seq<Entry>, cursor: nat, k: nat)
    requires Chronological(log) && StartsAt(log, cursor, k)
    ensures Since(log, cursor) == log[k..]
  {
    var j := SinceIsSuffix(log, cursor);
    OneStart(log, cursor, j, k);
  }

  lemma StartCarries(log: seq<Entry>, seen: seq<Entry>, cursor: nat, k: nat)
    requires seen <= log && StartsAt(seen, cursor, k) && k < |seen|
    ensures StartsAt(log, cursor, k)
  {}

  lemma BatchAt(log: seq<Entry>, seen: seq<Entry>, k: nat, n: nat)
    requires seen <= log && k <= n <= |seen|
    ensures seen[k..n] == log[k..n] && log[k..] == log[k..n] + log[n..]
  {}

  lemma PartIsSlice(seen: seq<Entry>, cursor: nat, m: nat) returns (k: nat)
    requires Chronological(seen) && 0 < m <= |EventsAfter(seen, cursor)|
    ensures k + m <= |seen| && StartsAt(seen, cursor, k) && EventsAfter(seen, cursor)[..m] == seen[k..k + m]
  {
    k := SinceIsSuffix(seen, cursor);
    FrontOfRest(seen, k, m);
    assert EventsAfter(seen, cursor)[..m] == seen[k..][..m];
  }

  lemma FrontOfRest(seen: seq<Entry>, k: nat, m: nat)
    requires k + m <= |seen|
    ensures seen[k..][..m] == seen[k..k + m]
  {
    var a, b := seen[k..][..m], seen[k..k + m];
    assert |a| == |b| == m;
    forall i | 0 <= i < m ensures a[i] == b[i] {
      assert a[i] == seen[k..][i] == seen[k + i];
    }
  }

  lemma EndsAt(log: seq<Entry>, n: nat)
    requires Chronological(log) && 0 < n <= |log|
    ensures StartsAt(log, log[n - 1].id, n)
  {}

  lemma SliceSplits(log: seq<Entry>, seen: seq<Entry>, cursor: nat, k: nat, n: nat)
    requires Chronological(log) && seen <= log && k < n <= |seen| && StartsAt(seen, cursor, k)
    ensures Since(log, cursor) == seen[k..n] + Since(log, seen[n - 1].id)
  {
    StartCarries(log, seen, cursor, k);
    SinceAt(log, cursor, k);
    EndsAt(log, n);
    SinceAt(log, log[n - 1].id, n);
    BatchAt(log, seen, k, n);
  }

  /** A front part of a batch is the front of what is still to come. */
  lemma PartSplits(log: seq<Entry>, seen: seq<Entry>, cursor: nat, part: seq<Entry>, m: nat)
    requires Chronological(log) && seen <= log && 0 < m <= |EventsAfter(seen, cursor)| &&
             part == EventsAfter(seen, cursor)[..m]
    ensures Since(log, cursor) == part + Since(log, part[m - 1].id)
  {
    var k := PartIsSlice(seen, cursor, m);
    SliceSplits(log, seen, cursor, k, k + m);
    LastOfSlice(seen, k, k + m, part);
  }

  lemma LastOfSlice(seen: seq<Entry>, k: nat, n: nat, batch: seq<Entry>)
    requires k < n <= |seen| && batch == seen[k..n]
    ensures batch[|batch| - 1] == seen[n - 1]
  {}

  /** The stream keeps up: a batch is empty only when nothing is left. */
  lemma EmptyMeansCaughtUp(log: seq<Entry>, cursor: nat)
    ensures EventsAfter(log, cursor) == [] <==> Since(log, cursor) == []
  {}
}
