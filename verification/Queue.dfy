/** The hint queue both controllers keep: bounded, without duplicates, with delayed retries. It only
    speeds things up; a dropped hint is repaired by the next sweep. */
module Queue {
  import opened Ipv4
  import opened Keys
  import opened Rows

  const QUEUE_LIMIT: nat := 1024
  /** Delays in milliseconds. */
  const RETRY_BASE: nat := 100
  const RETRY_MAX: nat := 30000

  datatype Entry = Entry(attempt: nat, due: int)

  /** Doubling from the base, capped. */
  function Backoff(attempt: nat): nat
    requires attempt > 0
  {
    var d := RETRY_BASE * Pow2(attempt - 1);
    if d < RETRY_MAX then d else RETRY_MAX
  }

  lemma {:induction false} BackoffGrows(a: nat, b: nat)
    requires 0 < a <= b
    ensures RETRY_BASE <= Backoff(a) <= Backoff(b) <= RETRY_MAX
    decreases b - a
  {
    if a < b {
      BackoffGrows(a + 1, b);
    }
  }

  /** From the tenth attempt on every delay is the longest one, and not before. */
  lemma BackoffSaturates(attempt: nat)
    requires attempt > 0
    ensures Backoff(attempt) == RETRY_MAX <==> attempt >= 10
  {
    assert Pow2(8) == 256 && Pow2(9) == 512;
    if attempt >= 10 {
      BackoffGrows(10, attempt);
    } else {
      BackoffGrows(attempt, 9);
    }
  }

  class Controller {
    var pending: set<Id>
    var retries: map<Id, Entry>
    /** Whether the one-slot wake channel holds a token. */
    var wake: bool

    ghost predicate Valid()
      reads this
    {
      |pending| <= QUEUE_LIMIT && |retries| <= QUEUE_LIMIT && forall id :: id in retries ==> retries[id].attempt > 0
    }

    constructor ()
      ensures Valid() && pending == {} && retries == map[] && !wake
    {
      pending, retries, wake := {}, map[], false;
    }

    /** A hint is kept unless the queue is full, and the worker is always woken. */
    method Enqueue(id: Id)
      requires Valid()
      modifies this`pending, this`wake
      ensures Valid() && wake
      ensures pending == if |old(pending)| < QUEUE_LIMIT then old(pending) + {id} else old(pending)
    {
      if |pending| < QUEUE_LIMIT {
        pending := pending + {id};
      }
      wake := true;
    }

    /** Takes any one hint. */
    method Pop() returns (id: Option<Id>)
      requires Valid()
      modifies this`pending
      ensures Valid() && (id.None? <==> old(pending) == {})
      ensures id.Some? ==> id.value in old(pending) && pending == old(pending) - {id.value}
    {
      if pending == {} {
        return None;
      }
      var any :| any in pending;
      pending := pending - {any};
      id := Some(any);
    }

    method EnqueueAll(ids: seq<Id>)
      requires Valid()
      modifies this`pending, this`wake
      ensures Valid() && old(pending) <= pending && |pending| <= |old(pending)| + |ids|
      ensures forall id :: id in pending ==> id in old(pending) || id in ids
      ensures forall id :: id in ids ==> id in pending || |pending| >= QUEUE_LIMIT
    {
      ghost var before := pending;
      for i := 0 to |ids|
        invariant Valid() && before <= pending && |pending| <= |before| + i
        invariant forall id :: id in pending ==> id in before || id in ids
        invariant forall n :: 0 <= n < i ==> ids[n] in pending || |pending| >= QUEUE_LIMIT
      {
        ghost var held := pending;
        Enqueue(ids[i]);
        NoFewer(held, pending);
      }
    }

    /** The worker's drain, while hints keep arriving: `arrivals[n]` come in while the n-th hint is being
        handled. It goes back to sleep only with an empty queue, so a hint that arrives later finds it
        waiting for the token that Enqueue leaves. Every pending hint is handled, and every arriving one
        after its arrival, unless so many others were waiting that the queue was full. */
    method Drain(arrivals: seq<seq<Id>>) returns (handled: seq<Id>)
      requires Valid()
      modifies this`pending, this`wake
      ensures Valid() && pending == {} && |handled| <= |old(pending)| + Total(arrivals)
      ensures forall id :: id in old(pending) ==> id in handled
      ensures forall id :: id in handled ==> id in old(pending) || Arrives(arrivals, id)
      ensures forall n :: 0 <= n < |arrivals| && n < |handled| ==> Answered(arrivals[n], n, handled, pending)
    {
      handled := [];
      ghost var before := pending;
      assert arrivals[..0] == [];
      while pending != {}
        invariant Valid() && |handled| + |pending| <= |before| + Total(arrivals[..Min(|handled|, |arrivals|)])
        invariant forall id :: id in before ==> id in handled || id in pending
        invariant forall id :: id in handled || id in pending ==> id in before || Arrives(arrivals, id)
        invariant forall n :: 0 <= n < |arrivals| && n < |handled| ==> Answered(arrivals[n], n, handled, pending)
        decreases |arrivals| - Min(|handled|, |arrivals|), |pending|
      {
        var n := |handled|;
        ghost var was, waiting := handled, pending;
        var id := Pop();
        handled := handled + [id.value];
        ghost var left := pending;
        if n < |arrivals| {
          EnqueueAll(arrivals[n]);
          TotalMore(arrivals, n);
        }
        NoFewer(left, pending);
        forall m | 0 <= m < |arrivals| && m < |was| ensures Answered(arrivals[m], m, handled, pending) {
          StillAnswered(arrivals[m], m, was, waiting, id.value, pending);
        }
      }
      TotalMost(arrivals, Min(|handled|, |arrivals|));
    }

    method Retry(id: Id, now: int)
      requires Valid()
      modifies this`retries
      ensures Valid()
      ensures
        var attempt := if id in old(retries) then old(retries)[id].attempt + 1 else 1;
        retries == if attempt == 1 && |old(retries)| >= QUEUE_LIMIT then old(retries)
                   else old(retries)[id := Entry(attempt, now + Backoff(attempt))]
    {
      var attempt := if id in retries then retries[id].attempt else 0;
      if |retries| >= QUEUE_LIMIT && attempt == 0 {
        return;
      }
      attempt := attempt + 1;
      var delay, n := RETRY_BASE, 1;
      while n < attempt && delay < RETRY_MAX
        invariant 1 <= n <= attempt && delay == Backoff(n)
      {
        delay := delay * 2;
        if delay > RETRY_MAX {
          delay := RETRY_MAX;
        }
        n := n + 1;
      }
      BackoffGrows(n, attempt);
      assert id in retries ==> retries.Keys + {id} == retries.Keys;
      assert retries[id := Entry(attempt, now + delay)].Keys == retries.Keys + {id};
      SizeOf(retries, id, Entry(attempt, now + delay));
      retries := retries[id := Entry(attempt, now + delay)];
    }

    method ClearRetry(id: Id)
      requires Valid()
      modifies this`retries
      ensures Valid() && retries == old(retries) - {id}
    {
      Fewer(retries, id);
      retries := retries - {id};
    }

    /** How a pass ends: a failure is retried later, a success forgets earlier failures. */
    method Report(id: Id, failed: bool, now: int)
      requires Valid()
      modifies this`retries
      ensures Valid()
      ensures !failed ==> retries == old(retries) - {id}
      ensures failed && (id in old(retries) || |old(retries)| < QUEUE_LIMIT) ==>
                retries == old(retries)[id := Again(old(retries), id, now)]
      ensures failed && id !in old(retries) && |old(retries)| >= QUEUE_LIMIT ==> retries == old(retries)
    {
      if failed {
        Retry(id, now);
      } else {
        ClearRetry(id);
      }
    }

    /** Any history of passes over one instance or VPC, with room in the table: what waits at the end
        depends only on the failures since the last success, and is due by their backoff. */
    method ReportAll(id: Id, failed: seq<bool>, at: seq<int>)
      requires Valid() && id !in retries && |retries| < QUEUE_LIMIT && |failed| == |at|
      modifies this`retries
      ensures Valid() && retries - {id} == old(retries)
      ensures Streak(failed) == 0 <==> id !in retries
      ensures Streak(failed) > 0 ==>
                retries[id] == Entry(Streak(failed), Latest(at) + Backoff(Streak(failed)))
    {
      ghost var others := retries;
      ReportEach(id, failed, at, others);
      WaitsMeans(retries, others, id, Streak(failed), Latest(at));
    }

    method ReportEach(id: Id, failed: seq<bool>, at: seq<int>, ghost others: map<Id, Entry>)
      requires Valid() && retries == others && id !in others && |others| < QUEUE_LIMIT && |failed| == |at|
      modifies this`retries
      ensures Valid() && Waits(retries, others, id, Streak(failed), Latest(at))
    {
      for k := 0 to |failed|
        invariant Valid() && Waits(retries, others, id, Streak(failed[..k]), Latest(at[..k]))
      {
        ReportOnce(id, failed, at, k, others);
      }
      assert failed[..|failed|] == failed && at[..|at|] == at;
    }

    method ReportOnce(id: Id, failed: seq<bool>, at: seq<int>, k: nat, ghost others: map<Id, Entry>)
      requires Valid() && k < |failed| == |at| && Waits(retries, others, id, Streak(failed[..k]), Latest(at[..k]))
      modifies this`retries
      ensures Valid() && Waits(retries, others, id, Streak(failed[..k + 1]), Latest(at[..k + 1]))
    {
      StreakMore(failed, k);
      assert Latest(at[..k + 1]) == at[k];
      WaitsOn(retries, others, id, Streak(failed[..k]), Latest(at[..k]), at[k]);
      Report(id, failed[k], at[k]);
    }

    /** One turn of the loop below. */
    method QueueIfDue(id: Id, now: int)
      requires Valid() && id in retries
      modifies this`pending, this`retries
      ensures Valid()
      ensures
        var takes := old(retries)[id].due <= now && |old(pending)| < QUEUE_LIMIT;
        && pending == (if takes then old(pending) + {id} else old(pending))
        && retries == (if takes then old(retries)[id := old(retries)[id].(due := now + RETRY_MAX)] else old(retries))
    {
      var entry := retries[id];
      if entry.due <= now && |pending| < QUEUE_LIMIT {
        pending := pending + {id};
        SizeOf(retries, id, entry.(due := now + RETRY_MAX));
        retries := retries[id := entry.(due := now + RETRY_MAX)];
      }
    }

    /** Due entries, visited in any order, are queued while there is room and pushed back; nothing
        else changes, and while the queue is below its limit afterwards none was left out. */
    method EnqueueDueRetries(order: seq<Id>, now: int)
      requires Valid() && (forall id :: id in order <==> id in retries) && Distinct(order)
      modifies this`pending, this`retries
      ensures Valid() && retries.Keys == old(retries).Keys && old(pending) <= pending
      ensures forall id :: id in retries ==> PushedBack(old(retries)[id], retries[id], now, id in pending)
      ensures forall id :: id in pending ==> id in old(pending) || (id in retries && old(retries)[id].due <= now)
      ensures |pending| < QUEUE_LIMIT ==> forall id :: id in retries && old(retries)[id].due <= now ==> id in pending
    {
      ghost var before, held := retries, pending;
      for i := 0 to |order|
        invariant Valid() && Visited(before, held, retries, pending, now) && Ahead(before, retries, order[i..])
        invariant |pending| < QUEUE_LIMIT ==> Taken(before, pending, order[..i], now)
      {
        ghost var r, p := retries, pending;
        OrderSplits(order, i);
        QueueIfDue(order[i], now);
        VisitOne(before, held, r, p, now, order[i], order[i + 1..], retries, pending);
        NoFewer(p, pending);
      }
      assert order[..|order|] == order;
    }
  }

  /** Only due entries are pushed back, and only those were queued. */
  ghost predicate Visited(before: map<Id, Entry>, held: set<Id>, retries: map<Id, Entry>, pending: set<Id>, now: int) {
    && retries.Keys == before.Keys && held <= pending
    && (forall id :: id in retries ==> PushedBack(before[id], retries[id], now, id in pending))
    && (forall id :: id in pending ==> id in held || (id in before && before[id].due <= now))
  }

  /** Entries not visited yet are as before. */
  ghost predicate Ahead(before: map<Id, Entry>, retries: map<Id, Entry>, rest: seq<Id>) {
    forall id :: id in rest ==> id in before && id in retries && retries[id] == before[id]
  }

  ghost predicate Taken(before: map<Id, Entry>, pending: set<Id>, visited: seq<Id>, now: int) {
    forall id :: id in visited && id in before && before[id].due <= now ==> id in pending
  }

  lemma VisitOne(before: map<Id, Entry>, held: set<Id>, r: map<Id, Entry>, p: set<Id>, now: int, id: Id, rest: seq<Id>,
                 retries: map<Id, Entry>, pending: set<Id>)
    requires Visited(before, held, r, p, now) && Ahead(before, r, [id] + rest) && id !in rest
    requires
      var takes := id in r && r[id].due <= now && |p| < QUEUE_LIMIT;
      && pending == (if takes then p + {id} else p)
      && retries == (if takes then r[id := r[id].(due := now + RETRY_MAX)] else r)
    ensures Visited(before, held, retries, pending, now) && Ahead(before, retries, rest)
  {
    assert id in [id] + rest;
    assert forall x :: x in rest ==> x in [id] + rest;
  }

  lemma OrderSplits(order: seq<Id>, i: nat)
    requires Distinct(order) && i < |order|
    ensures order[i..] == [order[i]] + order[i + 1..] && order[..i + 1] == order[..i] + [order[i]]
    ensures order[i] in order && order[i] !in order[i + 1..]
  {}

  function Min(a: nat, b: nat): nat {
    if a < b then a else b
  }

  ghost predicate Arrives(arrivals: seq<seq<Id>>, id: Id) {
    exists n :: 0 <= n < |arrivals| && id in arrivals[n]
  }

  function Total(arrivals: seq<seq<Id>>): nat {
    if arrivals == [] then 0 else |arrivals[|arrivals| - 1]| + Total(arrivals[..|arrivals| - 1])
  }

  lemma TotalMore(arrivals: seq<seq<Id>>, n: nat)
    requires n < |arrivals|
    ensures Total(arrivals[..n + 1]) == Total(arrivals[..n]) + |arrivals[n]|
  {
    assert arrivals[..n + 1][..n] == arrivals[..n];
  }

  lemma {:induction false} TotalMost(arrivals: seq<seq<Id>>, n: nat)
    requires n <= |arrivals|
    ensures Total(arrivals[..n]) <= Total(arrivals)
    decreases |arrivals| - n
  {
    if n < |arrivals| {
      TotalMore(arrivals, n);
      TotalMost(arrivals, n + 1);
    } else {
      assert arrivals[..n] == arrivals;
    }
  }

  /** Hints that arrived while the n-th was handled are handled later or still waiting; one that is
      neither met a full queue, all of which is handled after it or waiting. */
  ghost predicate Answered(arrived: seq<Id>, n: nat, handled: seq<Id>, pending: set<Id>)
    requires n < |handled|
  {
    forall id :: id in arrived ==>
      id in handled[n + 1..] || id in pending || |handled| - (n + 1) + |pending| >= QUEUE_LIMIT
  }

  lemma StillAnswered(arrived: seq<Id>, n: nat, was: seq<Id>, waiting: set<Id>, id: Id, pending: set<Id>)
    requires n < |was| && Answered(arrived, n, was, waiting) && id in waiting && waiting - {id} <= pending
    ensures Answered(arrived, n, was + [id], pending)
  {
    assert (was + [id])[n + 1..] == was[n + 1..] + [id];
    NoFewer(waiting - {id}, pending);
  }

  lemma NoFewer(a: set<Id>, b: set<Id>)
    requires a <= b
    ensures |a| <= |b|
  {
    assert b == a + (b - a) && a !! (b - a);
  }

  /** The entry after one more failure. */
  function Again(retries: map<Id, Entry>, id: Id, now: int): Entry
    requires id in retries ==> retries[id].attempt > 0
  {
    var attempt := if id in retries then retries[id].attempt + 1 else 1;
    Entry(attempt, now + Backoff(attempt))
  }

  /** Beside the others, the id waits for its retry after this many failures, the last one at `last`. */
  ghost predicate Waits(retries: map<Id, Entry>, others: map<Id, Entry>, id: Id, streak: nat, last: int) {
    && id !in others && |others| < QUEUE_LIMIT
    && retries == if streak == 0 then others else others[id := Entry(streak, last + Backoff(streak))]
  }

  lemma WaitsMeans(retries: map<Id, Entry>, others: map<Id, Entry>, id: Id, streak: nat, last: int)
    requires Waits(retries, others, id, streak, last)
    ensures retries - {id} == others && (streak == 0 <==> id !in retries)
    ensures streak > 0 ==> retries[id] == Entry(streak, last + Backoff(streak))
  {}

  function Latest(at: seq<int>): int {
    if at == [] then 0 else at[|at| - 1]
  }

  lemma WaitsOn(retries: map<Id, Entry>, others: map<Id, Entry>, id: Id, streak: nat, last: int, now: int)
    requires Waits(retries, others, id, streak, last)
    ensures Waits(retries - {id}, others, id, 0, now) && (id in retries || |retries| < QUEUE_LIMIT)
    ensures (id in retries ==> retries[id].attempt > 0) &&
            Waits(retries[id := Again(retries, id, now)], others, id, streak + 1, now)
  {
    assert retries - {id} == others;
  }

  /** How many failures stand at the end. */
  function Streak(failed: seq<bool>): nat {
    if failed == [] || !failed[|failed| - 1] then 0 else 1 + Streak(failed[..|failed| - 1])
  }

  lemma StreakMore(failed: seq<bool>, k: nat)
    requires k < |failed|
    ensures Streak(failed[..k + 1]) == if failed[k] then 1 + Streak(failed[..k]) else 0
  {
    assert failed[..k + 1][..k] == failed[..k];
  }

  predicate PushedBack(was: Entry, e: Entry, now: int, queued: bool) {
    e == was || (was.due <= now && e == Entry(was.attempt, now + RETRY_MAX) && queued)
  }

  lemma SizeOf(m: map<Id, Entry>, id: Id, e: Entry)
    ensures |m[id := e]| == |m| + if id in m then 0 else 1
  {
    assert m[id := e].Keys == m.Keys + {id};
    assert id in m ==> m.Keys + {id} == m.Keys;
  }

  lemma Fewer(m: map<Id, Entry>, id: Id)
    ensures |m - {id}| <= |m|
  {
    var rest := m - {id};
    assert rest.Keys == m.Keys - {id};
    assert |rest.Keys| == |rest| && |m.Keys| == |m|;
    if id in m {
      assert m.Keys == rest.Keys + {id};
    } else {
      assert m.Keys == rest.Keys;
    }
  }
}
