/** Every transaction keeps the store invariant and only lets rows evolve forward. The lemmas below
    the first heading each treat one part of the invariant under the change of one row. */
module StoreProofs {
  import opened Ipv4
  import opened Rows
  import opened Transactions
  import opened StoreInvariant

  // ---- One row, one part ----

  lemma VpcIssued(issued: seq<Id>, vpcs: map<Id, Vpc>, id: Id)
    requires VpcRows(issued, vpcs) && id in vpcs
    ensures id in issued
  {
    assert VpcOk(issued, id, vpcs[id]);
  }

  lemma SubnetIssued(issued: seq<Id>, subnets: map<Id, Subnet>, id: Id)
    requires SubnetRows(issued, subnets) && id in subnets
    ensures id in issued
  {
    assert SubnetOk(issued, id, subnets[id]);
  }

  lemma InstanceIssued(issued: seq<Id>, instances: map<Id, Instance>, id: Id)
    requires InstanceRows(issued, instances) && id in instances
    ensures id in issued
  {
    assert InstanceOk(issued, id, instances[id]);
  }

  lemma RowsSurviveIssue(db: Db, more: seq<Id>)
    requires RowsOk(db)
    ensures VpcRows(db.issued + more, db.vpcs)
    ensures SubnetRows(db.issued + more, db.subnets)
    ensures InstanceRows(db.issued + more, db.instances)
  {
    forall v | v in db.vpcs ensures VpcOk(db.issued + more, v, db.vpcs[v]) {
      assert VpcOk(db.issued, v, db.vpcs[v]);
    }
    forall s | s in db.subnets ensures SubnetOk(db.issued + more, s, db.subnets[s]) {
      assert SubnetOk(db.issued, s, db.subnets[s]);
    }
    forall i | i in db.instances ensures InstanceOk(db.issued + more, i, db.instances[i]) {
      assert InstanceOk(db.issued, i, db.instances[i]);
    }
  }

  lemma FoldSnoc(events: seq<Event>, e: Event)
    ensures Fold(events + [e]) == Apply(Fold(events), e)
  {
    assert (events + [e])[..|events|] == events;
  }

  predicate Tells(e: Event, kind: Kind, id: Id, shown: Shown) {
    e.kind == kind && e.id == id && e.verb != Deleted && Shown(e.shown, e.gen, e.message) == shown
  }

  lemma NoteVpc(j: map<Key, Shown>, db: Db, id: Id, row: Vpc, e: Event)
    requires Journals(j, db) && Tells(e, VpcKind, id, ShownVpc(row))
    ensures Journals(Apply(j, e), db.(vpcs := db.vpcs[id := row]))
  {}

  lemma NoteSubnet(j: map<Key, Shown>, db: Db, id: Id, row: Subnet, e: Event)
    requires Journals(j, db) && Tells(e, SubnetKind, id, ShownSubnet(row))
    ensures Journals(Apply(j, e), db.(subnets := db.subnets[id := row]))
  {}

  lemma NoteInstance(j: map<Key, Shown>, db: Db, id: Id, row: Instance, e: Event)
    requires Journals(j, db) && Tells(e, InstanceKind, id, ShownInstance(row))
    ensures Journals(Apply(j, e), db.(instances := db.instances[id := row]))
  {}

  lemma NoteGone(j: map<Key, Shown>, db: Db, e: Event)
    requires Journals(j, db) && e.verb == Deleted
    ensures e.kind == VpcKind ==> Journals(Apply(j, e), db.(vpcs := db.vpcs - {e.id}))
    ensures e.kind == SubnetKind ==> Journals(Apply(j, e), db.(subnets := db.subnets - {e.id}))
    ensures e.kind == InstanceKind ==> Journals(Apply(j, e), db.(instances := db.instances - {e.id}))
  {}

  lemma PlanWithVpc(vpcs: map<Id, Vpc>, subnets: map<Id, Subnet>, id: Id, row: Vpc)
    requires PlanOk(vpcs, subnets) && Canonical(row.cidr)
    requires id in vpcs ==> row.cidr == vpcs[id].cidr
    ensures PlanOk(vpcs[id := row], subnets)
  {
    var next := vpcs[id := row];
    forall v | v in next ensures Canonical(next[v].cidr) {
      assert v != id ==> Canonical(vpcs[v].cidr);
    }
    forall s | s in subnets ensures Nested(next, subnets[s]) {
      assert Nested(vpcs, subnets[s]);
    }
    forall s, t | s in subnets && t in subnets && s != t ensures Apart(subnets[s], subnets[t]) {}
  }

  lemma PlanWithSubnet(vpcs: map<Id, Vpc>, subnets: map<Id, Subnet>, id: Id, row: Subnet)
    requires PlanOk(vpcs, subnets) && Nested(vpcs, row)
    requires forall s {:trigger Apart(row, subnets[s])} :: s in subnets && s != id ==> Apart(row, subnets[s])
    ensures PlanOk(vpcs, subnets[id := row])
  {
    var next := subnets[id := row];
    forall s | s in next ensures Nested(vpcs, next[s]) {
      assert s != id ==> Nested(vpcs, subnets[s]);
    }
    forall s, t | s in next && t in next && s != t ensures Apart(next[s], next[t]) {
      if t == id {
        assert Apart(row, subnets[s]);
        OverlapSymmetric(row, subnets[s]);
      } else if s != id {
        assert Apart(subnets[s], subnets[t]);
      }
    }
  }

  lemma OverlapSymmetric(s: Subnet, t: Subnet)
    requires Apart(s, t)
    ensures Apart(t, s)
  {}

  lemma LeasesWithSubnet(subnets: map<Id, Subnet>, instances: map<Id, Instance>, id: Id, row: Subnet)
    requires LeasesOk(subnets, instances)
    requires id in subnets ==> row.cidr == subnets[id].cidr
    ensures LeasesOk(subnets[id := row], instances)
  {
    forall i | i in instances ensures LeaseOk(subnets[id := row], instances[i]) {
      assert LeaseOk(subnets, instances[i]);
    }
    forall i, j | i in instances && j in instances && i != j ensures LeaseApart(instances[i], instances[j]) {}
  }

  lemma LeasesWithInstance(subnets: map<Id, Subnet>, instances: map<Id, Instance>, id: Id, row: Instance)
    requires LeasesOk(subnets, instances) && LeaseOk(subnets, row)
    requires forall i {:trigger LeaseApart(row, instances[i])} :: i in instances && i != id ==>
             LeaseApart(row, instances[i])
    ensures LeasesOk(subnets, instances[id := row])
  {
    var next := instances[id := row];
    forall i | i in next ensures LeaseOk(subnets, next[i]) {
      assert i != id ==> LeaseOk(subnets, instances[i]);
    }
    forall i, j | i in next && j in next && i != j ensures LeaseApart(next[i], next[j]) {
      assert i != id && j != id ==> LeaseApart(instances[i], instances[j]);
      assert i == id ==> LeaseApart(row, instances[j]);
      assert j == id ==> LeaseApart(row, instances[i]);
    }
  }

  lemma Unchanged(issued: seq<Id>, vpcs: map<Id, Vpc>, subnets: map<Id, Subnet>, instances: map<Id, Instance>)
    ensures VpcsEvolve(issued, vpcs, vpcs) && SubnetsEvolve(issued, subnets, subnets) &&
            InstancesEvolve(issued, instances, instances)
  {}

  lemma PutVpc(issued: seq<Id>, vpcs: map<Id, Vpc>, subnets: map<Id, Subnet>, id: Id, row: Vpc)
    requires VpcRows(issued, vpcs) && SubnetRefs(vpcs, subnets)
    requires VpcOk(issued, id, row) && id in vpcs && VpcEvolves(vpcs[id], row)
    requires row.deleting ==> forall s :: s in subnets ==> subnets[s].vpc != id
    ensures VpcRows(issued, vpcs[id := row]) && SubnetRefs(vpcs[id := row], subnets)
    ensures VpcsEvolve(issued, vpcs, vpcs[id := row])
  {}

  lemma PutSubnet(issued: seq<Id>, vpcs: map<Id, Vpc>, subnets: map<Id, Subnet>, instances: map<Id, Instance>,
                  id: Id, row: Subnet)
    requires SubnetRows(issued, subnets) && SubnetRefs(vpcs, subnets) && InstanceRefs(subnets, instances)
    requires SubnetOk(issued, id, row) && id in subnets && SubnetEvolves(subnets[id], row)
    requires row.deleting ==> forall i :: i in instances ==> instances[i].subnet != id
    ensures SubnetRows(issued, subnets[id := row]) && SubnetRefs(vpcs, subnets[id := row])
    ensures InstanceRefs(subnets[id := row], instances) && SubnetsEvolve(issued, subnets, subnets[id := row])
  {}

  lemma PutInstance(issued: seq<Id>, subnets: map<Id, Subnet>, instances: map<Id, Instance>, id: Id, row: Instance)
    requires InstanceRows(issued, instances) && InstanceRefs(subnets, instances)
    requires InstanceOk(issued, id, row) && id in instances && InstanceEvolves(instances[id], row)
    ensures InstanceRows(issued, instances[id := row]) && InstanceRefs(subnets, instances[id := row])
    ensures InstancesEvolve(issued, instances, instances[id := row])
  {}

  lemma ReplaceLease(subnets: map<Id, Subnet>, instances: map<Id, Instance>, id: Id, row: Instance)
    requires LeasesOk(subnets, instances) && id in instances && InstanceEvolves(instances[id], row)
    ensures LeasesOk(subnets, instances[id := row])
  {
    assert LeaseOk(subnets, instances[id]);
    forall i | i in instances && i != id ensures LeaseApart(row, instances[i]) {
      assert LeaseApart(instances[id], instances[i]);
    }
    LeasesWithInstance(subnets, instances, id, row);
  }

  /** An update of one instance row that shows the same to readers of the log. */
  lemma InstanceSilent(db: Db, id: Id, row: Instance)
    requires DbInv(db) && id in db.instances
    requires InstanceOk(db.issued, id, row) && InstanceEvolves(db.instances[id], row)
    requires ShownInstance(row) == ShownInstance(db.instances[id])
    ensures DbInv(db.(instances := db.instances[id := row]))
    ensures Evolves(db, db.(instances := db.instances[id := row]))
  {
    PutInstance(db.issued, db.subnets, db.instances, id, row);
    ReplaceLease(db.subnets, db.instances, id, row);
    Unchanged(db.issued, db.vpcs, db.subnets, db.instances);
    SilentJournal(Fold(db.events), db.instances, id, row);
  }

  lemma SilentJournal(j: map<Key, Shown>, instances: map<Id, Instance>, id: Id, row: Instance)
    requires InstanceJournal(j, instances) && id in instances && ShownInstance(row) == ShownInstance(instances[id])
    ensures InstanceJournal(j, instances[id := row])
  {}

  /** An update of one instance row together with the event that tells it. */
  lemma InstanceUpdate(db: Db, id: Id, row: Instance, e: Event)
    requires DbInv(db) && id in db.instances
    requires InstanceOk(db.issued, id, row) && InstanceEvolves(db.instances[id], row)
    requires Tells(e, InstanceKind, id, ShownInstance(row))
    ensures DbInv(db.(instances := db.instances[id := row], events := db.events + [e]))
    ensures Evolves(db, db.(instances := db.instances[id := row], events := db.events + [e]))
  {
    PutInstance(db.issued, db.subnets, db.instances, id, row);
    ReplaceLease(db.subnets, db.instances, id, row);
    Unchanged(db.issued, db.vpcs, db.subnets, db.instances);
    FoldSnoc(db.events, e);
    NoteInstance(Fold(db.events), db, id, row, e);
  }

  // ---- Reconciler writes to instance rows ----

  lemma TerminateKeeps(db: Db, id: Id)
    requires DbInv(db)
    ensures DbInv(TerminateTx(db, id).0) && Evolves(db, TerminateTx(db, id).0)
  {
    Unchanged(db.issued, db.vpcs, db.subnets, db.instances);
    if id in db.instances && !db.instances[id].deleting {
      var row := MarkInstance(db.instances[id]);
      InstanceUpdate(db, id, row, Event(InstanceKind, id, Terminating, InstanceLabel(ShuttingDown), row.gen, ""));
    }
  }

  lemma RuntimeNamed(db: Db, id: Id, rid: RuntimeId)
    requires DbInv(db) && id in db.instances &&
             (db.instances[id].runtime.None? || db.instances[id].runtime == Some(rid))
    ensures
      var next := db.(instances := db.instances[id := db.instances[id].(runtime := Some(rid))]);
      DbInv(next) && Evolves(db, next)
  {
    assert InstanceOk(db.issued, id, db.instances[id]);
    InstanceSilent(db, id, db.instances[id].(runtime := Some(rid)));
  }

  lemma RecordRuntimeKeeps(db: Db, id: Id, gen: nat, rid: RuntimeId)
    requires DbInv(db) && RecordRuntimeTx(db, id, gen, rid).Committed?
    ensures DbInv(RecordRuntimeTx(db, id, gen, rid).db) && Evolves(db, RecordRuntimeTx(db, id, gen, rid).db)
  {
    RuntimeNamed(db, id, rid);
  }

  lemma RetainRuntimeKeeps(db: Db, id: Id, rid: RuntimeId)
    requires DbInv(db) && RetainRuntimeTx(db, id, rid).Committed?
    ensures DbInv(RetainRuntimeTx(db, id, rid).db) && Evolves(db, RetainRuntimeTx(db, id, rid).db)
  {
    RuntimeNamed(db, id, rid);
  }

  lemma SettledInstanceOk(issued: seq<Id>, id: Id, i: Instance, state: InstanceState, reason: string, observed: bool)
    requires InstanceOk(issued, id, i)
    requires observed ==> !i.deleting && i.runtime.Some?
    requires state == Running ==> observed && reason == ""
    ensures InstanceOk(issued, id, SettleInstance(i, state, reason, observed))
    ensures InstanceEvolves(i, SettleInstance(i, state, reason, observed))
  {}

  lemma RecordInstanceShape(db: Db, id: Id, snap: Instance, state: InstanceState, reason: string, observed: bool)
    requires RecordInstanceTx(db, id, snap, state, reason, observed).Committed?
    ensures id in db.instances && SameDecision(db.instances[id], snap)
    ensures observed ==> snap.runtime.Some? && !snap.deleting
    ensures
      var next := RecordInstanceTx(db, id, snap, state, reason, observed).db;
      var row := SettleInstance(db.instances[id], state, reason, observed);
      next == db ||
      next == db.(instances := db.instances[id := row],
                  events := db.events + [Event(InstanceKind, id, Status, InstanceLabel(state), db.instances[id].gen,
                                               reason)])
  {}

  lemma RecordInstanceKeeps(db: Db, id: Id, snap: Instance, state: InstanceState, reason: string, observed: bool)
    requires DbInv(db) && RecordInstanceTx(db, id, snap, state, reason, observed).Committed?
    requires state == Running ==> observed && reason == ""
    ensures DbInv(RecordInstanceTx(db, id, snap, state, reason, observed).db)
    ensures Evolves(db, RecordInstanceTx(db, id, snap, state, reason, observed).db)
  {
    Unchanged(db.issued, db.vpcs, db.subnets, db.instances);
    var current := db.instances[id];
    var row := SettleInstance(current, state, reason, observed);
    var e := Event(InstanceKind, id, Status, InstanceLabel(state), current.gen, reason);
    var next := RecordInstanceTx(db, id, snap, state, reason, observed).db;
    RecordInstanceShape(db, id, snap, state, reason, observed);
    if next != db {
      SettledInstanceOk(db.issued, id, current, state, reason, observed);
      InstanceUpdate(db, id, row, e);
    }
  }

  lemma FinishTerminationKeeps(db: Db, id: Id, snap: Instance)
    requires DbInv(db) && FinishTerminationTx(db, id, snap).Committed?
    ensures DbInv(FinishTerminationTx(db, id, snap).db) && Evolves(db, FinishTerminationTx(db, id, snap).db)
  {
    var e := Event(InstanceKind, id, Deleted, Gone, db.instances[id].gen, "");
    FoldSnoc(db.events, e);
    NoteGone(Fold(db.events), db, e);
    Unchanged(db.issued, db.vpcs, db.subnets, db.instances);
    LeasesWithout(db.subnets, db.instances, id);
  }

  lemma LeasesWithout(subnets: map<Id, Subnet>, instances: map<Id, Instance>, id: Id)
    requires LeasesOk(subnets, instances)
    ensures LeasesOk(subnets, instances - {id})
  {
    var rest := instances - {id};
    forall i | i in rest ensures LeaseOk(subnets, rest[i]) {
      assert LeaseOk(subnets, instances[i]);
    }
    forall i, j | i in rest && j in rest && i != j ensures LeaseApart(rest[i], rest[j]) {
      assert LeaseApart(instances[i], instances[j]);
    }
  }

  // ---- API transactions on the network ----

  lemma VpcUpdate(db: Db, id: Id, row: Vpc, e: Event)
    requires DbInv(db) && id in db.vpcs
    requires VpcOk(db.issued, id, row) && VpcEvolves(db.vpcs[id], row) && Tells(e, VpcKind, id, ShownVpc(row))
    requires row.deleting ==> forall s :: s in db.subnets ==> db.subnets[s].vpc != id
    ensures DbInv(db.(vpcs := db.vpcs[id := row], events := db.events + [e]))
    ensures Evolves(db, db.(vpcs := db.vpcs[id := row], events := db.events + [e]))
  {
    FoldSnoc(db.events, e);
    NoteVpc(Fold(db.events), db, id, row, e);
    assert Canonical(db.vpcs[id].cidr);
    PlanWithVpc(db.vpcs, db.subnets, id, row);
    PutVpc(db.issued, db.vpcs, db.subnets, id, row);
    Unchanged(db.issued, db.vpcs, db.subnets, db.instances);
  }

  lemma SubnetUpdate(db: Db, id: Id, row: Subnet, e: Event)
    requires DbInv(db) && id in db.subnets
    requires SubnetOk(db.issued, id, row) && SubnetEvolves(db.subnets[id], row) &&
             Tells(e, SubnetKind, id, ShownSubnet(row))
    requires row.deleting ==> forall i :: i in db.instances ==> db.instances[i].subnet != id
    ensures DbInv(db.(subnets := db.subnets[id := row], events := db.events + [e]))
    ensures Evolves(db, db.(subnets := db.subnets[id := row], events := db.events + [e]))
  {
    FoldSnoc(db.events, e);
    NoteSubnet(Fold(db.events), db, id, row, e);
    ReplaceRange(db.vpcs, db.subnets, id, row);
    LeasesWithSubnet(db.subnets, db.instances, id, row);
    PutSubnet(db.issued, db.vpcs, db.subnets, db.instances, id, row);
    Unchanged(db.issued, db.vpcs, db.subnets, db.instances);
  }

  lemma ReplaceRange(vpcs: map<Id, Vpc>, subnets: map<Id, Subnet>, id: Id, row: Subnet)
    requires PlanOk(vpcs, subnets) && id in subnets && SubnetEvolves(subnets[id], row)
    ensures PlanOk(vpcs, subnets[id := row])
  {
    assert Nested(vpcs, subnets[id]);
    forall s | s in subnets && s != id ensures Apart(row, subnets[s]) {
      assert Apart(subnets[id], subnets[s]);
    }
    PlanWithSubnet(vpcs, subnets, id, row);
  }

  lemma DeleteVpcKeeps(db: Db, id: Id)
    requires DbInv(db)
    ensures DbInv(DeleteVpcTx(db, id).0) && Evolves(db, DeleteVpcTx(db, id).0)
  {
    Unchanged(db.issued, db.vpcs, db.subnets, db.instances);
    if id in db.vpcs && KidsOf(db.subnets, id) == map[] && !db.vpcs[id].deleting {
      var row := MarkVpc(db.vpcs[id]);
      assert forall s :: s in db.subnets && db.subnets[s].vpc == id ==> s in KidsOf(db.subnets, id);
      assert VpcOk(db.issued, id, db.vpcs[id]);
      VpcUpdate(db, id, row, Event(VpcKind, id, MarkedDeleting, NetLabel(Deleting), row.gen, ""));
    }
  }

  lemma DeleteSubnetShape(db: Db, id: Id)
    ensures
      var next := DeleteSubnetTx(db, id).0;
      next != db ==>
        && id in db.subnets && !db.subnets[id].deleting
        && (forall i :: i in db.instances ==> db.instances[i].subnet != id)
        && var row := MarkSubnet(db.subnets[id]);
           next == db.(subnets := db.subnets[id := row],
                       events := db.events + [Event(SubnetKind, id, MarkedDeleting, NetLabel(Deleting), row.gen, "")])
  {}

  lemma DeleteSubnetKeeps(db: Db, id: Id)
    requires DbInv(db)
    ensures DbInv(DeleteSubnetTx(db, id).0) && Evolves(db, DeleteSubnetTx(db, id).0)
  {
    Unchanged(db.issued, db.vpcs, db.subnets, db.instances);
    var next := DeleteSubnetTx(db, id).0;
    DeleteSubnetShape(db, id);
    if next != db {
      var row := MarkSubnet(db.subnets[id]);
      assert SubnetOk(db.issued, id, db.subnets[id]);
      SubnetUpdate(db, id, row, Event(SubnetKind, id, MarkedDeleting, NetLabel(Deleting), row.gen, ""));
    }
  }

  // ---- Creates ----

  lemma IssueVpc(db: Db, id: Id, row: Vpc)
    requires RowsOk(db) && SubnetRefs(db.vpcs, db.subnets) && id !in db.issued && VpcOk(db.issued + [id], id, row)
    ensures VpcRows(db.issued + [id], db.vpcs[id := row]) && SubnetRefs(db.vpcs[id := row], db.subnets)
    ensures VpcsEvolve(db.issued, db.vpcs, db.vpcs[id := row])
  {
    RowsSurviveIssue(db, [id]);
    if id in db.vpcs {
      VpcIssued(db.issued, db.vpcs, id);
    }
  }

  lemma IssueSubnet(db: Db, id: Id, row: Subnet)
    requires RowsOk(db) && RefsOk(db) && id !in db.issued && SubnetOk(db.issued + [id], id, row)
    requires row.vpc in db.vpcs && !db.vpcs[row.vpc].deleting
    ensures id !in db.subnets
    ensures SubnetRows(db.issued + [id], db.subnets[id := row]) && SubnetRefs(db.vpcs, db.subnets[id := row])
    ensures InstanceRefs(db.subnets[id := row], db.instances) &&
            SubnetsEvolve(db.issued, db.subnets, db.subnets[id := row])
  {
    RowsSurviveIssue(db, [id]);
    if id in db.subnets {
      SubnetIssued(db.issued, db.subnets, id);
    }
  }

  lemma IssueInstance(db: Db, id: Id, eniId: Id, row: Instance)
    requires RowsOk(db) && InstanceRefs(db.subnets, db.instances) && id !in db.issued
    requires InstanceOk(db.issued + [id, eniId], id, row)
    requires row.subnet in db.subnets && !db.subnets[row.subnet].deleting
    ensures id !in db.instances
    ensures InstanceRows(db.issued + [id, eniId], db.instances[id := row]) &&
            InstanceRefs(db.subnets, db.instances[id := row])
    ensures InstancesEvolve(db.issued, db.instances, db.instances[id := row])
  {
    RowsSurviveIssue(db, [id, eniId]);
    if id in db.instances {
      InstanceIssued(db.issued, db.instances, id);
    }
  }

  lemma VpcInsert(db: Db, id: Id, row: Vpc, e: Event)
    requires DbInv(db) && id !in db.issued && Tells(e, VpcKind, id, ShownVpc(row))
    requires VpcOk(db.issued + [id], id, row) && Canonical(row.cidr)
    ensures DbInv(db.(vpcs := db.vpcs[id := row], issued := db.issued + [id], events := db.events + [e]))
    ensures Evolves(db, db.(vpcs := db.vpcs[id := row], issued := db.issued + [id], events := db.events + [e]))
  {
    if id in db.vpcs {
      VpcIssued(db.issued, db.vpcs, id);
    }
    FoldSnoc(db.events, e);
    NoteVpc(Fold(db.events), db, id, row, e);
    RowsSurviveIssue(db, [id]);
    IssueVpc(db, id, row);
    PlanWithVpc(db.vpcs, db.subnets, id, row);
    Unchanged(db.issued, db.vpcs, db.subnets, db.instances);
  }

  lemma SubnetInsert(db: Db, id: Id, row: Subnet, e: Event)
    requires DbInv(db) && id !in db.issued && Tells(e, SubnetKind, id, ShownSubnet(row))
    requires SubnetOk(db.issued + [id], id, row) && !row.deleting
    requires Nested(db.vpcs, row) && !db.vpcs[row.vpc].deleting
    requires forall s {:trigger Apart(row, db.subnets[s])} :: s in db.subnets && s != id ==> Apart(row, db.subnets[s])
    ensures DbInv(db.(subnets := db.subnets[id := row], issued := db.issued + [id], events := db.events + [e]))
    ensures Evolves(db, db.(subnets := db.subnets[id := row], issued := db.issued + [id], events := db.events + [e]))
  {
    FoldSnoc(db.events, e);
    NoteSubnet(Fold(db.events), db, id, row, e);
    RowsSurviveIssue(db, [id]);
    IssueSubnet(db, id, row);
    PlanWithSubnet(db.vpcs, db.subnets, id, row);
    LeasesWithSubnet(db.subnets, db.instances, id, row);
    Unchanged(db.issued, db.vpcs, db.subnets, db.instances);
  }

  lemma InstanceInsert(db: Db, id: Id, eniId: Id, row: Instance, e: Event)
    requires DbInv(db) && id !in db.issued && Tells(e, InstanceKind, id, ShownInstance(row))
    requires InstanceOk(db.issued + [id, eniId], id, row)
    requires LeaseOk(db.subnets, row) && !db.subnets[row.subnet].deleting
    requires forall i {:trigger LeaseApart(row, db.instances[i])} :: i in db.instances && i != id ==>
             LeaseApart(row, db.instances[i])
    ensures DbInv(db.(instances := db.instances[id := row], issued := db.issued + [id, eniId],
                      events := db.events + [e]))
    ensures Evolves(db, db.(instances := db.instances[id := row], issued := db.issued + [id, eniId],
                            events := db.events + [e]))
  {
    FoldSnoc(db.events, e);
    NoteInstance(Fold(db.events), db, id, row, e);
    RowsSurviveIssue(db, [id, eniId]);
    IssueInstance(db, id, eniId, row);
    LeasesWithInstance(db.subnets, db.instances, id, row);
    Unchanged(db.issued, db.vpcs, db.subnets, db.instances);
  }

  lemma ReplayIrrelevant(db: Db, before: Db, slot: Slot, payload: Payload, response: Response, now: int)
    requires DbInv(db) && Evolves(before, db)
    ensures DbInv(SaveReplay(db, slot, payload, response, now))
    ensures Evolves(before, SaveReplay(db, slot, payload, response, now))
  {}

  function NewVpc(db: Db, name: string, cidr: Prefix): Vpc {
    Vpc(name, cidr, |db.issued| + 1, Pending, "", false, 1, 0)
  }

  lemma CreateVpcShape(db: Db, id: Id, name: string, raw: Prefix, key: string, now: int)
    requires Valid(raw)
    ensures
      var next := CreateVpcTx(db, id, name, raw, key, now).0;
      next != db ==>
        && id !in db.issued && ParseCidr(raw).Some?
        && var row := NewVpc(db, name, ParseCidr(raw).value);
           var put := db.(vpcs := db.vpcs[id := row], issued := db.issued + [id],
                          events := db.events + [Event(VpcKind, id, Created, NetLabel(Pending), 1, "")]);
           next == SaveReplay(put, Slot(CreateVpcOp, key), VpcPayload(name, row.cidr), VpcResponse(id, row), now)
  {}

  lemma CreateVpcKeeps(db: Db, id: Id, name: string, raw: Prefix, key: string, now: int)
    requires DbInv(db) && Valid(raw)
    ensures DbInv(CreateVpcTx(db, id, name, raw, key, now).0)
    ensures Evolves(db, CreateVpcTx(db, id, name, raw, key, now).0)
  {
    Unchanged(db.issued, db.vpcs, db.subnets, db.instances);
    CreateVpcShape(db, id, name, raw, key, now);
    if CreateVpcTx(db, id, name, raw, key, now).0 != db {
      var cidr := ParseCidr(raw).value;
      var row := NewVpc(db, name, cidr);
      var e := Event(VpcKind, id, Created, NetLabel(Pending), 1, "");
      VpcInsert(db, id, row, e);
      ReplayIrrelevant(db.(vpcs := db.vpcs[id := row], issued := db.issued + [id], events := db.events + [e]), db,
                       Slot(CreateVpcOp, key), VpcPayload(name, cidr), VpcResponse(id, row), now);
    }
  }

  function NewSubnet(db: Db, vpc: Id, name: string, cidr: Prefix): Subnet {
    Subnet(vpc, name, cidr, |db.issued| + 1, Pending, "", false, 1, 0)
  }

  lemma CreateSubnetShape(db: Db, id: Id, vpc: Id, name: string, raw: Prefix, zone: string, key: string, now: int)
    requires Valid(raw)
    requires forall v :: v in db.vpcs ==> db.vpcs[v].cidr.bits <= 32
    requires forall s :: s in db.subnets ==> db.subnets[s].cidr.bits <= 32
    ensures
      var next := CreateSubnetTx(db, id, vpc, name, raw, zone, key, now).0;
      next != db ==>
        && id !in db.issued && ParseCidr(raw).Some?
        && vpc in db.vpcs && !db.vpcs[vpc].deleting && RangeOk(db.vpcs[vpc].cidr, ParseCidr(raw).value)
        && var row := NewSubnet(db, vpc, name, ParseCidr(raw).value);
           var put := db.(subnets := db.subnets[id := row], issued := db.issued + [id],
                          events := db.events + [Event(SubnetKind, id, Created, NetLabel(Pending), 1, "")]);
           && (forall s {:trigger Apart(row, db.subnets[s])} :: s in db.subnets ==> Apart(row, db.subnets[s]))
           && next == SaveReplay(put, Slot(CreateSubnetOp, key), SubnetPayload(name, vpc, row.cidr, zone),
                                 SubnetResponse(id, row), now)
  {}

  lemma PlanIsValid(vpcs: map<Id, Vpc>, subnets: map<Id, Subnet>)
    requires PlanOk(vpcs, subnets)
    ensures forall v :: v in vpcs ==> vpcs[v].cidr.bits <= 32
    ensures forall s :: s in subnets ==> Valid(subnets[s].cidr)
  {
    forall v | v in vpcs ensures vpcs[v].cidr.bits <= 32 {
      assert Canonical(vpcs[v].cidr);
    }
    forall s | s in subnets ensures Valid(subnets[s].cidr) {
      assert Nested(vpcs, subnets[s]);
    }
  }

  lemma CreateSubnetKeeps(db: Db, id: Id, vpc: Id, name: string, raw: Prefix, zone: string, key: string, now: int)
    requires DbInv(db) && Valid(raw)
    ensures forall v :: v in db.vpcs ==> db.vpcs[v].cidr.bits <= 32
    ensures forall s :: s in db.subnets ==> db.subnets[s].cidr.bits <= 32
    ensures DbInv(CreateSubnetTx(db, id, vpc, name, raw, zone, key, now).0)
    ensures Evolves(db, CreateSubnetTx(db, id, vpc, name, raw, zone, key, now).0)
  {
    PlanIsValid(db.vpcs, db.subnets);
    Unchanged(db.issued, db.vpcs, db.subnets, db.instances);
    CreateSubnetShape(db, id, vpc, name, raw, zone, key, now);
    if CreateSubnetTx(db, id, vpc, name, raw, zone, key, now).0 != db {
      var cidr := ParseCidr(raw).value;
      var row := NewSubnet(db, vpc, name, cidr);
      var e := Event(SubnetKind, id, Created, NetLabel(Pending), 1, "");
      assert Canonical(db.vpcs[vpc].cidr);
      SubnetInsert(db, id, row, e);
      ReplayIrrelevant(db.(subnets := db.subnets[id := row], issued := db.issued + [id], events := db.events + [e]), db,
                       Slot(CreateSubnetOp, key), SubnetPayload(name, vpc, cidr, zone), SubnetResponse(id, row), now);
    }
  }

  lemma FreshLease(subnets: map<Id, Subnet>, instances: map<Id, Instance>, row: Instance)
    requires row.subnet in subnets && Valid(subnets[row.subnet].cidr)
    requires NextAddress(subnets[row.subnet].cidr, UsedAddresses(instances, row.subnet)) == Leased(row.eni.ip)
    ensures LeaseOk(subnets, row) && forall i {:trigger LeaseApart(row, instances[i])} :: i in instances ==>
            LeaseApart(row, instances[i])
  {
    AssignableThreeWays(subnets[row.subnet].cidr, row.eni.ip);
    forall i | i in instances ensures LeaseApart(row, instances[i]) {
      assert instances[i].subnet == row.subnet ==> instances[i].eni.ip in UsedAddresses(instances, row.subnet);
    }
  }

  function NewInstance(db: Db, eniId: Id, subnet: Id, name: string, ip: nat): Instance {
    Instance(subnet, name, |db.issued| + 1, Booting, "", false, 1, 0, None,
             Eni(eniId, |db.issued| + 2, ip, Pending, "", 1, 0))
  }

  lemma RunInstanceShape(db: Db, id: Id, eniId: Id, subnet: Id, name: string, key: string, now: int)
    requires forall s :: s in db.subnets ==> Valid(db.subnets[s].cidr)
    ensures
      var next := RunInstanceTx(db, id, eniId, subnet, name, key, now).0;
      next != db ==>
        && id !in db.issued && subnet in db.subnets && !db.subnets[subnet].deleting
        && var lease := NextAddress(db.subnets[subnet].cidr, UsedAddresses(db.instances, subnet));
           && lease.Leased?
           && var row := NewInstance(db, eniId, subnet, name, lease.ip);
              var put := db.(instances := db.instances[id := row], issued := db.issued + [id, eniId],
                             events := db.events + [Event(InstanceKind, id, Created, InstanceLabel(Booting), 1, "")]);
              next == SaveReplay(put, Slot(RunInstanceOp, key), InstancePayload(name, subnet),
                                 InstanceResponse(id, row), now)
  {}

  lemma RunInstanceKeeps(db: Db, id: Id, eniId: Id, subnet: Id, name: string, key: string, now: int)
    requires DbInv(db)
    ensures forall s :: s in db.subnets ==> Valid(db.subnets[s].cidr)
    ensures DbInv(RunInstanceTx(db, id, eniId, subnet, name, key, now).0)
    ensures Evolves(db, RunInstanceTx(db, id, eniId, subnet, name, key, now).0)
  {
    PlanIsValid(db.vpcs, db.subnets);
    Unchanged(db.issued, db.vpcs, db.subnets, db.instances);
    RunInstanceShape(db, id, eniId, subnet, name, key, now);
    if RunInstanceTx(db, id, eniId, subnet, name, key, now).0 != db {
      var ip := NextAddress(db.subnets[subnet].cidr, UsedAddresses(db.instances, subnet)).ip;
      var row := NewInstance(db, eniId, subnet, name, ip);
      var e := Event(InstanceKind, id, Created, InstanceLabel(Booting), 1, "");
      FreshLease(db.subnets, db.instances, row);
      InstanceInsert(db, id, eniId, row, e);
      ReplayIrrelevant(db.(instances := db.instances[id := row], issued := db.issued + [id, eniId],
                           events := db.events + [e]), db,
                       Slot(RunInstanceOp, key), InstancePayload(name, subnet), InstanceResponse(id, row), now);
    }
  }
}
