/** RecordTopology: settling the children one by one is the closed form, and the log follows along. */
module TopologyProofs {
  import opened Ipv4
  import opened Keys
  import opened Rows
  import opened Transactions
  import opened StoreInvariant
  import opened StoreProofs

  /** One turn of the child loop. */
  function SettleOne(subnets: map<Id, Subnet>, id: Id, state: NetState, reason: string, ok: bool): map<Id, Subnet>
    requires id in subnets
  {
    if subnets[id].deleting && ok then subnets - {id}
    else subnets[id := SettleSubnet(subnets[id], state, reason, ok)]
  }

  predicate Queued(subnets: map<Id, Subnet>, ids: seq<Id>) {
    Ascending(ids) && forall c :: c in ids ==> c in subnets
  }

  lemma PendingRest(subnets: map<Id, Subnet>, ids: seq<Id>, state: NetState, reason: string, ok: bool)
    requires Queued(subnets, ids) && ids != []
    ensures ids[0] in subnets && Queued(SettleOne(subnets, ids[0], state, reason, ok), ids[1..])
    ensures forall c :: c in ids[1..] ==> SettleOne(subnets, ids[0], state, reason, ok)[c] == subnets[c]
  {
    assert ids[0] in ids;
    assert forall c :: c in ids[1..] ==> c in ids && c != ids[0];
  }

  /** The whole child loop. */
  function SettleAll(subnets: map<Id, Subnet>, ids: seq<Id>, state: NetState, reason: string, ok: bool): map<Id, Subnet>
    requires Queued(subnets, ids)
    decreases |ids|
  {
    if ids == [] then subnets
    else
      PendingRest(subnets, ids, state, reason, ok);
      SettleAll(SettleOne(subnets, ids[0], state, reason, ok), ids[1..], state, reason, ok)
  }

  /** The loop computes the closed form: listed rows are settled or dropped, the others untouched. */
  lemma {:induction false} SettleAllRows(subnets: map<Id, Subnet>, ids: seq<Id>, state: NetState, reason: string,
                                         ok: bool)
    requires Queued(subnets, ids)
    ensures
      var r := SettleAll(subnets, ids, state, reason, ok);
      && (forall s :: s in r <==> s in subnets && !(s in ids && subnets[s].deleting && ok))
      && (forall s :: s in r ==> r[s] == if s in ids then SettleSubnet(subnets[s], state, reason, ok) else subnets[s])
    decreases |ids|
  {
    if ids != [] {
      PendingRest(subnets, ids, state, reason, ok);
      SettleAllRows(SettleOne(subnets, ids[0], state, reason, ok), ids[1..], state, reason, ok);
      assert forall c :: c in ids <==> c == ids[0] || c in ids[1..];
    }
  }

  lemma SettleAllIsClosed(subnets: map<Id, Subnet>, ids: seq<Id>, vpc: Id, state: NetState, reason: string, ok: bool)
    requires Queued(subnets, ids) && forall s :: s in ids <==> s in subnets && subnets[s].vpc == vpc
    ensures SettleAll(subnets, ids, state, reason, ok) == SettledSubnets(subnets, vpc, state, reason, ok)
  {
    SettleAllRows(subnets, ids, state, reason, ok);
    var r, closed := SettleAll(subnets, ids, state, reason, ok), SettledSubnets(subnets, vpc, state, reason, ok);
    assert forall s :: s in r <==> s in closed;
    assert forall s :: s in r ==> r[s] == closed[s];
    SameMap(r, closed);
  }

  lemma ListingOfKids(subnets: map<Id, Subnet>, vpc: Id)
    ensures Queued(subnets, Listing(KidsOf(subnets, vpc).Keys))
    ensures forall s :: s in Listing(KidsOf(subnets, vpc).Keys) <==> s in subnets && subnets[s].vpc == vpc
  {}

  lemma SameMap(a: map<Id, Subnet>, b: map<Id, Subnet>)
    requires forall s :: s in a <==> s in b
    requires forall s :: s in a ==> a[s] == b[s]
    ensures a == b
  {}

  lemma {:induction false} ChildEventsFrame(a: map<Id, Subnet>, b: map<Id, Subnet>, ids: seq<Id>, state: NetState,
                                            reason: string, ok: bool)
    requires forall c :: c in ids ==> c in a && c in b && a[c] == b[c]
    ensures ChildEvents(a, ids, state, reason, ok) == ChildEvents(b, ids, state, reason, ok)
  {
    if ids != [] {
      assert ids[0] in ids;
      assert forall c :: c in ids[1..] ==> c in ids;
      ChildEventsFrame(a, b, ids[1..], state, reason, ok);
    }
  }

  lemma NoteChild(events: seq<Event>, db: Db, id: Id, state: NetState, reason: string, ok: bool)
    requires Journals(Fold(events), db) && id in db.subnets
    ensures Journals(Fold(events + ChildEvent(id, db.subnets[id], state, reason, ok)),
                     db.(subnets := SettleOne(db.subnets, id, state, reason, ok)))
  {
    var s := db.subnets[id];
    var note := ChildEvent(id, s, state, reason, ok);
    if note == [] {
      assert events + note == events;
      assert db.subnets[id := s] == db.subnets;
    } else {
      FoldSnoc(events, note[0]);
      if s.deleting && ok {
        NoteGone(Fold(events), db, note[0]);
      } else {
        NoteSubnet(Fold(events), db, id, SettleSubnet(s, state, reason, ok), note[0]);
      }
    }
  }

  lemma Joined(a: seq<Event>, b: seq<Event>, c: seq<Event>)
    ensures a + b + c == a + (b + c)
  {}

  lemma {:induction false} NoteChildren(events: seq<Event>, db: Db, ids: seq<Id>, state: NetState, reason: string,
                                        ok: bool)
    requires Journals(Fold(events), db) && Queued(db.subnets, ids)
    ensures Journals(Fold(events + ChildEvents(db.subnets, ids, state, reason, ok)),
                     db.(subnets := SettleAll(db.subnets, ids, state, reason, ok)))
    decreases |ids|
  {
    if ids == [] {
      assert events + ChildEvents(db.subnets, ids, state, reason, ok) == events;
    } else {
      PendingRest(db.subnets, ids, state, reason, ok);
      var note := ChildEvent(ids[0], db.subnets[ids[0]], state, reason, ok);
      var next := db.(subnets := SettleOne(db.subnets, ids[0], state, reason, ok));
      assert Journals(Fold(events + note), next) by {
        NoteChild(events, db, ids[0], state, reason, ok);
      }
      NoteChildren(events + note, next, ids[1..], state, reason, ok);
      var rest := ChildEvents(db.subnets, ids[1..], state, reason, ok);
      assert ChildEvents(next.subnets, ids[1..], state, reason, ok) == rest by {
        ChildEventsFrame(db.subnets, next.subnets, ids[1..], state, reason, ok);
      }
      Joined(events, note, rest);
    }
  }

  function VpcSettled(db: Db, id: Id, state: NetState, reason: string, ok: bool): Db
    requires id in db.vpcs
  {
    var row := SettleVpc(db.vpcs[id], state, reason, ok);
    if row == db.vpcs[id] then db
    else db.(vpcs := db.vpcs[id := row],
             events := db.events + [Event(VpcKind, id, Status, NetLabel(state), row.gen, reason)])
  }

  function SettledWith(db: Db, id: Id, state: NetState, reason: string, ok: bool): Db {
    db.(subnets := SettledSubnets(db.subnets, id, state, reason, ok),
        events := db.events + ChildEvents(db.subnets, Listing(KidsOf(db.subnets, id).Keys), state, reason, ok))
  }

  // ---- The remaining parts of the invariant ----

  lemma SettledRows(issued: seq<Id>, subnets: map<Id, Subnet>, vpc: Id, state: NetState, reason: string, ok: bool)
    requires SubnetRows(issued, subnets) && (ok <==> state == Available)
    ensures SubnetRows(issued, SettledSubnets(subnets, vpc, state, reason, ok))
    ensures SubnetsEvolve(issued, subnets, SettledSubnets(subnets, vpc, state, reason, ok))
  {
    var next := SettledSubnets(subnets, vpc, state, reason, ok);
    forall s | s in next ensures SubnetOk(issued, s, next[s]) {
      assert SubnetOk(issued, s, subnets[s]);
    }
  }

  lemma SettledRefs(vpcs: map<Id, Vpc>, subnets: map<Id, Subnet>, vpc: Id, state: NetState, reason: string, ok: bool)
    requires SubnetRefs(vpcs, subnets)
    ensures SubnetRefs(vpcs, SettledSubnets(subnets, vpc, state, reason, ok))
  {}

  lemma SettledPlan(vpcs: map<Id, Vpc>, subnets: map<Id, Subnet>, vpc: Id, state: NetState, reason: string, ok: bool)
    requires PlanOk(vpcs, subnets)
    ensures PlanOk(vpcs, SettledSubnets(subnets, vpc, state, reason, ok))
  {
    var next := SettledSubnets(subnets, vpc, state, reason, ok);
    forall s | s in next ensures Nested(vpcs, next[s]) {
      assert Nested(vpcs, subnets[s]);
    }
    forall s, t | s in next && t in next && s != t ensures Apart(next[s], next[t]) {
      assert Apart(subnets[s], subnets[t]);
    }
  }

  lemma SettledLeases(subnets: map<Id, Subnet>, instances: map<Id, Instance>, vpc: Id, state: NetState,
                      reason: string, ok: bool)
    requires LeasesOk(subnets, instances) && InstanceRefs(subnets, instances)
    ensures LeasesOk(SettledSubnets(subnets, vpc, state, reason, ok), instances)
    ensures InstanceRefs(SettledSubnets(subnets, vpc, state, reason, ok), instances)
  {
    var next := SettledSubnets(subnets, vpc, state, reason, ok);
    forall i | i in instances ensures LeaseOk(next, instances[i]) {
      assert LeaseOk(subnets, instances[i]);
    }
    forall i, j | i in instances && j in instances && i != j ensures LeaseApart(instances[i], instances[j]) {}
  }

  lemma SettledJournal(db: Db, vpc: Id, state: NetState, reason: string, ok: bool)
    requires Journals(Fold(db.events), db)
    ensures Journals(Fold(db.events +
            ChildEvents(db.subnets, Listing(KidsOf(db.subnets, vpc).Keys), state, reason, ok)),
                     db.(subnets := SettledSubnets(db.subnets, vpc, state, reason, ok)))
  {
    var ids := Listing(KidsOf(db.subnets, vpc).Keys);
    ListingOfKids(db.subnets, vpc);
    SettleAllIsClosed(db.subnets, ids, vpc, state, reason, ok);
    NoteChildren(db.events, db, ids, state, reason, ok);
  }

  lemma SettledDb(db: Db, vpc: Id, state: NetState, reason: string, ok: bool)
    requires DbInv(db) && (ok <==> state == Available)
    ensures DbInv(SettledWith(db, vpc, state, reason, ok)) && Evolves(db, SettledWith(db, vpc, state, reason, ok))
  {
    SettledJournal(db, vpc, state, reason, ok);
    SettledRows(db.issued, db.subnets, vpc, state, reason, ok);
    SettledRefs(db.vpcs, db.subnets, vpc, state, reason, ok);
    SettledPlan(db.vpcs, db.subnets, vpc, state, reason, ok);
    SettledLeases(db.subnets, db.instances, vpc, state, reason, ok);
    Unchanged(db.issued, db.vpcs, db.subnets, db.instances);
  }

  lemma RemoveVpc(db: Db, id: Id, gen: nat)
    requires DbInv(db) && forall s :: s in db.subnets ==> db.subnets[s].vpc != id
    ensures
      var next := db.(vpcs := db.vpcs - {id}, events := db.events + [Event(VpcKind, id, Deleted, Gone, gen, "")]);
      DbInv(next) && Evolves(db, next)
  {
    var e := Event(VpcKind, id, Deleted, Gone, gen, "");
    FoldSnoc(db.events, e);
    NoteGone(Fold(db.events), db, e);
    Unchanged(db.issued, db.vpcs, db.subnets, db.instances);
    PlanWithoutVpc(db.vpcs, db.subnets, id);
  }

  lemma PlanWithoutVpc(vpcs: map<Id, Vpc>, subnets: map<Id, Subnet>, id: Id)
    requires PlanOk(vpcs, subnets) && forall s :: s in subnets ==> subnets[s].vpc != id
    ensures PlanOk(vpcs - {id}, subnets)
  {
    var rest := vpcs - {id};
    forall v | v in rest ensures Canonical(rest[v].cidr) {
      assert Canonical(vpcs[v].cidr);
    }
    forall s | s in subnets ensures Nested(rest, subnets[s]) {
      assert Nested(vpcs, subnets[s]);
    }
    forall s, t | s in subnets && t in subnets && s != t ensures Apart(subnets[s], subnets[t]) {}
  }

  /** What a commit of RecordTopology did, said without its guards. */
  lemma TopologyShape(db: Db, id: Id, vpc: Vpc, kids: map<Id, Subnet>, failure: Option<string>)
    requires RecordTopologyTx(db, id, vpc, kids, failure).Committed?
    ensures id in db.vpcs && SameChildren(KidsOf(db.subnets, id), kids)
    ensures db.vpcs[id].gen == vpc.gen && db.vpcs[id].deleting == vpc.deleting && db.vpcs[id].index == vpc.index
    ensures
      var next := RecordTopologyTx(db, id, vpc, kids, failure).db;
      if vpc.deleting && failure.None? then
        && (forall s :: s in db.subnets ==> db.subnets[s].vpc != id)
        && next == db.(vpcs := db.vpcs - {id}, events := db.events + [Event(VpcKind, id, Deleted, Gone, vpc.gen, "")])
      else
        var ok := failure.None?;
        var state := if ok then Available else Failed;
        var reason := if ok then "" else failure.value;
        next == SettledWith(VpcSettled(db, id, state, reason, ok), id, state, reason, ok)
  {
    assert forall s :: s in db.subnets && db.subnets[s].vpc == id ==> s in KidsOf(db.subnets, id);
    if !(vpc.deleting && failure.None?) {
      var ok := failure.None?;
      var state := if ok then Available else Failed;
      var reason := if ok then "" else failure.value;
      if SettleVpc(db.vpcs[id], state, reason, ok) == db.vpcs[id] {
        assert db.vpcs[id := db.vpcs[id]] == db.vpcs;
        assert db.events + [] == db.events;
      }
    }
  }

  lemma VpcSettledKeeps(db: Db, id: Id, state: NetState, reason: string, ok: bool)
    requires DbInv(db) && id in db.vpcs && (ok <==> state == Available) && (db.vpcs[id].deleting ==> !ok)
    ensures DbInv(VpcSettled(db, id, state, reason, ok)) && Evolves(db, VpcSettled(db, id, state, reason, ok))
  {
    var row := SettleVpc(db.vpcs[id], state, reason, ok);
    assert VpcOk(db.issued, id, db.vpcs[id]);
    Unchanged(db.issued, db.vpcs, db.subnets, db.instances);
    if row != db.vpcs[id] {
      VpcUpdate(db, id, row, Event(VpcKind, id, Status, NetLabel(state), row.gen, reason));
    }
  }

  lemma RecordTopologyKeeps(db: Db, id: Id, vpc: Vpc, kids: map<Id, Subnet>, failure: Option<string>)
    requires DbInv(db) && RecordTopologyTx(db, id, vpc, kids, failure).Committed?
    ensures DbInv(RecordTopologyTx(db, id, vpc, kids, failure).db)
    ensures Evolves(db, RecordTopologyTx(db, id, vpc, kids, failure).db)
  {
    TopologyShape(db, id, vpc, kids, failure);
    if vpc.deleting && failure.None? {
      RemoveVpc(db, id, vpc.gen);
    } else {
      var ok := failure.None?;
      var state := if ok then Available else Failed;
      var reason := if ok then "" else failure.value;
      VpcSettledKeeps(db, id, state, reason, ok);
      SettledDb(VpcSettled(db, id, state, reason, ok), id, state, reason, ok);
      EvolvesTransitive(db, VpcSettled(db, id, state, reason, ok), RecordTopologyTx(db, id, vpc, kids, failure).db);
    }
  }
}
