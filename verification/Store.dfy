/** The store and the services above it, as they work: tables changed statement by statement inside a
    transaction, and put back when the transaction fails. Each method is proved to compute the
    transaction function of the same name, on which every other result rests. */
module Store {
  import opened Ipv4
  import opened Keys
  import opened Rows
  import opened Transactions
  import opened TopologyProofs

  /** A subnet row as a query returns it. */
  datatype Child = Child(id: Id, row: Subnet)

  predicate Holds(kids: map<Id, Subnet>, c: Child) {
    c.id in kids && kids[c.id] == c.row
  }

  /** The rows of `kids` in id order, which is the order of every query. */
  ghost predicate Lists(children: seq<Child>, kids: map<Id, Subnet>) {
    && Ascending(Ids(children)) && (forall n :: 0 <= n < |children| ==> Holds(kids, children[n]))
    && (forall c :: c in Ids(children) <==> c in kids)
  }

  function Ids(children: seq<Child>): (ids: seq<Id>)
    ensures |ids| == |children| && forall n :: 0 <= n < |ids| ==> ids[n] == children[n].id
  {
    seq(|children|, n requires 0 <= n < |children| => children[n].id)
  }

  predicate SameChild(a: Child, b: Child) {
    a.id == b.id && a.row.gen == b.row.gen && a.row.deleting == b.row.deleting && a.row.index == b.row.index
  }

  ghost predicate Positional(xs: seq<Child>, ys: seq<Child>) {
    |xs| == |ys| && forall n :: 0 <= n < |xs| ==> SameChild(xs[n], ys[n])
  }

  lemma PositionalMeansSame(xs: seq<Child>, ys: seq<Child>, a: map<Id, Subnet>, b: map<Id, Subnet>)
    requires Lists(xs, a) && Lists(ys, b) && Positional(xs, ys)
    ensures SameChildren(a, b)
  {
    assert Ids(xs) == Ids(ys);
    forall c | c in a
      ensures c in b && a[c].gen == b[c].gen && a[c].deleting == b[c].deleting && a[c].index == b[c].index
    {
      assert c in Ids(xs);
      var n :| 0 <= n < |Ids(xs)| && Ids(xs)[n] == c;
      assert SameChild(xs[n], ys[n]) && Holds(a, xs[n]) && Holds(b, ys[n]);
    }
    assert a.Keys == b.Keys;
  }

  lemma SameMeansPositional(xs: seq<Child>, ys: seq<Child>, a: map<Id, Subnet>, b: map<Id, Subnet>)
    requires Lists(xs, a) && Lists(ys, b) && SameChildren(a, b)
    ensures Positional(xs, ys)
  {
    ListingUnique(Ids(xs), Ids(ys));
    forall n | 0 <= n < |xs| ensures SameChild(xs[n], ys[n]) {
      assert Ids(xs)[n] == Ids(ys)[n];
      assert Holds(a, xs[n]) && Holds(b, ys[n]);
    }
  }

  /** Comparing two id-ordered lists position by position compares the two sets of rows. */
  lemma PositionalIffSame(xs: seq<Child>, ys: seq<Child>, a: map<Id, Subnet>, b: map<Id, Subnet>)
    requires Lists(xs, a) && Lists(ys, b)
    ensures Positional(xs, ys) <==> SameChildren(a, b)
  {
    if Positional(xs, ys) {
      PositionalMeansSame(xs, ys, a, b);
    }
    if SameChildren(a, b) {
      SameMeansPositional(xs, ys, a, b);
    }
  }

  method SameDesiredChildren(current: seq<Child>, applied: seq<Child>) returns (same: bool)
    ensures same <==> Positional(current, applied)
  {
    if |current| != |applied| {
      return false;
    }
    for i := 0 to |current|
      invariant forall n :: 0 <= n < i ==> SameChild(current[n], applied[n])
    {
      if !SameChild(current[i], applied[i]) {
        return false;
      }
    }
    same := true;
  }

  /** The addresses leased in `subnet` by the listed instances. */
  function LeasesOf(instances: map<Id, Instance>, ids: seq<Id>, subnet: Id): set<nat>
    requires forall i :: i in ids ==> i in instances
  {
    if ids == [] then {}
    else
      var last := ids[|ids| - 1];
      LeasesOf(instances, ids[..|ids| - 1], subnet) + if instances[last].subnet == subnet
        then {instances[last].eni.ip} else {}
  }

  lemma {:induction false} LeasesAreUsed(instances: map<Id, Instance>, ids: seq<Id>, subnet: Id)
    requires forall i :: i in ids ==> i in instances
    ensures LeasesOf(instances, ids, subnet) ==
            (set i | i in ids && instances[i].subnet == subnet :: instances[i].eni.ip)
    decreases |ids|
  {
    if ids != [] {
      var rest := ids[..|ids| - 1];
      LeasesAreUsed(instances, rest, subnet);
      assert forall i :: i in ids <==> i in rest || i == ids[|ids| - 1];
    }
  }

  // ---- The child loop of RecordTopology ----

  /** What the loop starts from. */
  datatype Turns = Turns(before: map<Id, Subnet>, log: seq<Event>, ids: seq<Id>, state: NetState, reason: string,
                         ok: bool)

  /** Before turn `i`: what is left to do, done to the rows and log as they are, gives the final result. */
  ghost predicate Between(t: Turns, i: nat, now: map<Id, Subnet>, log: seq<Event>) {
    && i <= |t.ids| && Queued(t.before, t.ids) && Queued(now, t.ids[i..])
    && SettleAll(now, t.ids[i..], t.state, t.reason, t.ok) == SettleAll(t.before, t.ids, t.state, t.reason, t.ok)
    && log + ChildEvents(now, t.ids[i..], t.state, t.reason, t.ok) ==
       t.log + ChildEvents(t.before, t.ids, t.state, t.reason, t.ok)
  }

  lemma LoopStarts(t: Turns, children: seq<Child>, vpc: Id)
    requires Lists(children, KidsOf(t.before, vpc)) && t.ids == Ids(children)
    ensures Midway(t, children, 0, t.before, t.log)
  {
    assert t.ids[0..] == t.ids;
  }

  lemma LoopTurns(t: Turns, i: nat, now: map<Id, Subnet>, log: seq<Event>)
    requires Between(t, i, now, log) && i < |t.ids|
    ensures t.ids[i] in now
    ensures Between(t, i + 1, SettleOne(now, t.ids[i], t.state, t.reason, t.ok),
                    log + ChildEvent(t.ids[i], now[t.ids[i]], t.state, t.reason, t.ok))
  {
    var rest := t.ids[i..];
    PendingRest(now, rest, t.state, t.reason, t.ok);
    assert rest[1..] == t.ids[i + 1..];
    var next := SettleOne(now, t.ids[i], t.state, t.reason, t.ok);
    ChildEventsFrame(now, next, rest[1..], t.state, t.reason, t.ok);
    Joined(log, ChildEvent(t.ids[i], now[t.ids[i]], t.state, t.reason, t.ok),
           ChildEvents(next, rest[1..], t.state, t.reason, t.ok));
  }

  lemma StillHeld(children: seq<Child>, i: nat, now: map<Id, Subnet>, state: NetState, reason: string, ok: bool)
    requires i < |children| && Ascending(Ids(children)) && Holds(now, children[i])
    requires forall n :: i <= n < |children| ==> Holds(now, children[n])
    ensures forall n :: i < n < |children| ==> Holds(SettleOne(now, children[i].id, state, reason, ok), children[n])
  {
    forall n | i < n < |children| ensures Holds(SettleOne(now, children[i].id, state, reason, ok), children[n]) {
      assert Ids(children)[i] < Ids(children)[n];
    }
  }

  /** After `i` turns, with the children still to come as they were listed. */
  ghost predicate Midway(t: Turns, children: seq<Child>, i: nat, now: map<Id, Subnet>, log: seq<Event>) {
    && t.ids == Ids(children) && Ascending(t.ids) && Between(t, i, now, log)
    && forall n :: i <= n < |children| ==> Holds(now, children[n])
  }

  lemma MidwayTurns(t: Turns, children: seq<Child>, i: nat, now: map<Id, Subnet>, log: seq<Event>)
    requires Midway(t, children, i, now, log) && i < |children|
    ensures Holds(now, children[i])
    ensures
      var next := SettleOne(now, children[i].id, t.state, t.reason, t.ok);
      Midway(t, children, i + 1, next, log + ChildEvent(children[i].id, children[i].row, t.state, t.reason, t.ok))
  {
    LoopTurns(t, i, now, log);
    StillHeld(children, i, now, t.state, t.reason, t.ok);
  }

  lemma LoopEnds(t: Turns, children: seq<Child>, vpc: Id, now: map<Id, Subnet>, log: seq<Event>)
    requires Lists(children, KidsOf(t.before, vpc)) && Midway(t, children, |children|, now, log)
    ensures now == SettledSubnets(t.before, vpc, t.state, t.reason, t.ok)
    ensures log == t.log + ChildEvents(t.before, Listing(KidsOf(t.before, vpc).Keys), t.state, t.reason, t.ok)
  {
    ListingUnique(t.ids, Listing(KidsOf(t.before, vpc).Keys));
    assert t.ids[|t.ids|..] == [];
    SettleAllIsClosed(t.before, t.ids, vpc, t.state, t.reason, t.ok);
  }

  class Database {
    var vpcs: map<Id, Vpc>
    var subnets: map<Id, Subnet>
    var instances: map<Id, Instance>
    var issued: seq<Id>
    var events: seq<Event>
    var replays: map<Slot, Replay>

    function Contents(): Db
      reads this
    {
      Db(vpcs, subnets, instances, issued, events, replays)
    }

    constructor ()
      ensures Contents() == Db(map[], map[], map[], [], [], map[])
    {
      vpcs, subnets, instances, issued, events, replays := map[], map[], map[], [], [], map[];
    }

    /** WithTx rolls back a transaction whose body failed. */
    method Rollback(saved: Db)
      modifies this
      ensures Contents() == saved
    {
      vpcs, subnets, instances := saved.vpcs, saved.subnets, saved.instances;
      issued, events, replays := saved.issued, saved.events, saved.replays;
    }

    /** A resource id is accepted once; the index is the new row's number. */
    method AllocateIndex(id: Id) returns (index: Option<Index>)
      modifies this`issued
      ensures index.None? <==> id in old(issued)
      ensures index.Some? ==> issued == old(issued) + [id] && index.value == |old(issued)| + 1
      ensures index.None? ==> issued == old(issued)
    {
      if id in issued {
        return None;
      }
      issued := issued + [id];
      index := Some(|issued|);
    }

    method AppendEvent(e: Event)
      modifies this`events
      ensures events == old(events) + [e]
    {
      events := events + [e];
    }

    method PutReplay(slot: Slot, payload: Payload, response: Response, now: int)
      modifies this`replays
      ensures Contents() == SaveReplay(old(Contents()), slot, payload, response, now)
    {
      if slot.key != "" {
        replays := replays[slot := Replay(payload, response, now + DAY)];
      }
    }

    // ---- API transactions ----

    method CreateVpc(id: Id, name: string, raw: Prefix, key: string, now: int) returns (reply: Reply)
      requires Valid(raw)
      modifies this
      ensures (Contents(), reply) == CreateVpcTx(old(Contents()), id, name, raw, key, now)
    {
      var parsed := ParseCidr(raw);
      if parsed.None? {
        return Refused(BadCidr);
      }
      var saved, cidr := Contents(), parsed.value;
      var slot, payload := Slot(CreateVpcOp, key), VpcPayload(name, cidr);
      match LoadReplay(saved, slot, payload, now) {
        case Hit(response) => return Done(response);
        case Mismatch => return Refused(ParameterMismatch);
        case Miss =>
      }
      if exists v :: v in vpcs && vpcs[v].name == name {
        return Refused(NameTaken);
      }
      var index := AllocateIndex(id);
      if index.None? {
        Rollback(saved);
        return Refused(Internal);
      }
      var row := Vpc(name, cidr, index.value, Pending, "", false, 1, 0);
      vpcs := vpcs[id := row];
      AppendEvent(Event(VpcKind, id, Created, NetLabel(row.state), 1, ""));
      PutReplay(slot, payload, VpcResponse(id, row), now);
      reply := Done(VpcResponse(id, row));
    }

    method DeleteVpc(id: Id) returns (reply: Reply)
      modifies this
      ensures (Contents(), reply) == DeleteVpcTx(old(Contents()), id)
    {
      if id !in vpcs {
        return Refused(NotFound);
      }
      if KidsOf(subnets, id) != map[] {
        return Refused(Dependency);
      }
      if vpcs[id].deleting {
        return Done(VpcResponse(id, vpcs[id]));
      }
      var row := MarkVpc(vpcs[id]);
      vpcs := vpcs[id := row];
      AppendEvent(Event(VpcKind, id, MarkedDeleting, NetLabel(row.state), row.gen, ""));
      reply := Done(VpcResponse(id, row));
    }

    /** The ids a query over the VPC's subnets returns, in its order. */
    method SubnetIds(vpc: Id) returns (ids: seq<Id>)
      ensures Ascending(ids) && forall c :: c in ids <==> c in KidsOf(subnets, vpc)
    {
      ids := Listing(KidsOf(subnets, vpc).Keys);
    }

    /** ListSubnetsByVPC: the children in id order, converted row by row. */
    method ListSubnetsByVpc(vpc: Id) returns (children: seq<Child>)
      ensures Lists(children, KidsOf(subnets, vpc))
    {
      var kids := KidsOf(subnets, vpc);
      var ids := SubnetIds(vpc);
      children := [];
      for i := 0 to |ids|
        invariant |children| == i && forall n :: 0 <= n < i ==> children[n].id == ids[n] && Holds(kids, children[n])
      {
        assert ids[i] in ids;
        children := children + [Child(ids[i], kids[ids[i]])];
      }
      assert Ids(children) == ids;
    }

    /** The ranges of the VPC's subnets, gathered row by row. */
    method SiblingRanges(vpc: Id) returns (ranges: seq<Prefix>)
      ensures forall s :: s in subnets && subnets[s].vpc == vpc ==> subnets[s].cidr in ranges
      ensures forall p :: p in ranges ==> exists s :: s in subnets && subnets[s].vpc == vpc && subnets[s].cidr == p
    {
      var siblings := ListSubnetsByVpc(vpc);
      ghost var kids := KidsOf(subnets, vpc);
      ranges := [];
      for i := 0 to |siblings|
        invariant |ranges| == i && forall n :: 0 <= n < i ==> ranges[n] == siblings[n].row.cidr
      {
        ranges := ranges + [siblings[i].row.cidr];
      }
      forall s | s in subnets && subnets[s].vpc == vpc ensures subnets[s].cidr in ranges {
        assert s in kids && s in Ids(siblings);
        var n :| 0 <= n < |Ids(siblings)| && Ids(siblings)[n] == s;
        assert Holds(kids, siblings[n]) && ranges[n] == subnets[s].cidr;
      }
      forall p | p in ranges ensures exists s :: s in subnets && subnets[s].vpc == vpc && subnets[s].cidr == p {
        var n :| 0 <= n < |ranges| && ranges[n] == p;
        assert Holds(kids, siblings[n]);
      }
    }

    method CreateSubnet(id: Id, vpc: Id, name: string, raw: Prefix, zone: string, key: string, now: int)
        returns (reply: Reply)
      requires Valid(raw)
      requires forall v :: v in vpcs ==> vpcs[v].cidr.bits <= 32
      requires forall s :: s in subnets ==> subnets[s].cidr.bits <= 32
      modifies this
      ensures (Contents(), reply) == CreateSubnetTx(old(Contents()), id, vpc, name, raw, zone, key, now)
    {
      var parsed := ParseCidr(raw);
      if parsed.None? {
        return Refused(BadCidr);
      }
      var saved, cidr := Contents(), parsed.value;
      var slot, payload := Slot(CreateSubnetOp, key), SubnetPayload(name, vpc, cidr, zone);
      match LoadReplay(saved, slot, payload, now) {
        case Hit(response) => return Done(response);
        case Mismatch => return Refused(ParameterMismatch);
        case Miss =>
      }
      if vpc !in vpcs {
        return Refused(NotFound);
      }
      if vpcs[vpc].deleting {
        return Refused(Dependency);
      }
      if !RangeOk(vpcs[vpc].cidr, cidr) {
        return Refused(OutOfRange);
      }
      var ranges := SiblingRanges(vpc);
      var disjoint := SubnetDisjoint(cidr, ranges);
      assert disjoint <==> !exists s :: s in subnets && subnets[s].vpc == vpc && Overlaps(cidr, subnets[s].cidr);
      if !disjoint {
        return Refused(Overlapping);
      }
      if exists s :: s in subnets && subnets[s].name == name {
        return Refused(NameTaken);
      }
      var index := AllocateIndex(id);
      if index.None? {
        Rollback(saved);
        return Refused(Internal);
      }
      var row := Subnet(vpc, name, cidr, index.value, Pending, "", false, 1, 0);
      subnets := subnets[id := row];
      AppendEvent(Event(SubnetKind, id, Created, NetLabel(row.state), 1, ""));
      PutReplay(slot, payload, SubnetResponse(id, row), now);
      reply := Done(SubnetResponse(id, row));
    }

    method DeleteSubnet(id: Id) returns (reply: Reply)
      modifies this
      ensures (Contents(), reply) == DeleteSubnetTx(old(Contents()), id)
    {
      if id !in subnets {
        return Refused(NotFound);
      }
      if exists i :: i in instances && instances[i].subnet == id {
        return Refused(Dependency);
      }
      if subnets[id].deleting {
        return Done(SubnetResponse(id, subnets[id]));
      }
      var row := MarkSubnet(subnets[id]);
      subnets := subnets[id := row];
      AppendEvent(Event(SubnetKind, id, MarkedDeleting, NetLabel(row.state), row.gen, ""));
      reply := Done(SubnetResponse(id, row));
    }

    method InstanceIds() returns (ids: seq<Id>)
      ensures Ascending(ids) && forall i :: i in ids <==> i in instances
    {
      ids := Listing(instances.Keys);
    }

    /** ENIAddresses: the leases of a subnet, gathered row by row. */
    method EniAddresses(subnet: Id) returns (used: set<nat>)
      ensures used == UsedAddresses(instances, subnet)
    {
      var ids := InstanceIds();
      used := {};
      for n := 0 to |ids|
        invariant used == LeasesOf(instances, ids[..n], subnet)
      {
        assert ids[..n + 1][..n] == ids[..n] && ids[n] in ids;
        if instances[ids[n]].subnet == subnet {
          used := used + {instances[ids[n]].eni.ip};
        }
      }
      assert ids[..|ids|] == ids;
      LeasesAreUsed(instances, ids, subnet);
    }

    method RunInstance(id: Id, eniId: Id, subnet: Id, name: string, key: string, now: int) returns (reply: Reply)
      requires forall s :: s in subnets ==> Valid(subnets[s].cidr)
      modifies this
      ensures (Contents(), reply) == RunInstanceTx(old(Contents()), id, eniId, subnet, name, key, now)
    {
      var saved := Contents();
      var slot, payload := Slot(RunInstanceOp, key), InstancePayload(name, subnet);
      match LoadReplay(saved, slot, payload, now) {
        case Hit(response) => return Done(response);
        case Mismatch => return Refused(ParameterMismatch);
        case Miss =>
      }
      if subnet !in subnets {
        return Refused(NotFound);
      }
      if subnets[subnet].deleting {
        return Refused(IncorrectState);
      }
      if exists i :: i in instances && instances[i].name == name {
        return Refused(NameTaken);
      }
      var used := EniAddresses(subnet);
      var lease := NextPrivateIp(subnets[subnet].cidr, used);
      if lease.Exhausted? {
        return Refused(AddressLimit);
      }
      if lease.NotCanonical? {
        return Refused(Internal);
      }
      var index := AllocateIndex(id);
      if index.None? {
        Rollback(saved);
        return Refused(Internal);
      }
      var eniIndex := AllocateIndex(eniId);
      if eniIndex.None? {
        Rollback(saved);
        return Refused(Internal);
      }
      var eni := Eni(eniId, eniIndex.value, lease.ip, Pending, "", 1, 0);
      var row := Instance(subnet, name, index.value, Booting, "", false, 1, 0, None, eni);
      instances := instances[id := row];
      AppendEvent(Event(InstanceKind, id, Created, InstanceLabel(row.state), 1, ""));
      PutReplay(slot, payload, InstanceResponse(id, row), now);
      assert saved.issued + [id] + [eniId] == saved.issued + [id, eniId];
      reply := Done(InstanceResponse(id, row));
    }

    method Terminate(id: Id) returns (reply: Reply)
      modifies this
      ensures (Contents(), reply) == TerminateTx(old(Contents()), id)
    {
      if id !in instances {
        return Refused(NotFound);
      }
      if instances[id].deleting {
        return Done(InstanceResponse(id, instances[id]));
      }
      var row := MarkInstance(instances[id]);
      instances := instances[id := row];
      AppendEvent(Event(InstanceKind, id, Terminating, InstanceLabel(row.state), row.gen, ""));
      reply := Done(InstanceResponse(id, row));
    }

    // ---- Reconciler commits ----

    method RecordVpcStatus(id: Id, state: NetState, reason: string, observed: bool)
      requires id in vpcs
      modifies this`vpcs, this`events
      ensures Contents() == VpcSettled(old(Contents()), id, state, reason, observed)
    {
      var vpc := vpcs[id];
      var generation := if observed then vpc.gen else vpc.obs;
      if vpc.state == state && vpc.reason == reason && vpc.obs == generation {
        return;
      }
      vpcs := vpcs[id := vpc.(state := state, reason := reason, obs := generation)];
      AppendEvent(Event(VpcKind, id, Status, NetLabel(state), vpc.gen, reason));
    }

    /** One turn of the child loop: a deleted child goes once the effect succeeded, any other is settled. */
    method SettleChild(child: Child, state: NetState, reason: string, ok: bool)
      requires Holds(subnets, child)
      modifies this`subnets, this`events
      ensures subnets == SettleOne(old(subnets), child.id, state, reason, ok)
      ensures events == old(events) + ChildEvent(child.id, child.row, state, reason, ok)
    {
      if child.row.deleting && ok {
        subnets := subnets - {child.id};
        AppendEvent(Event(SubnetKind, child.id, Deleted, Gone, child.row.gen, ""));
        return;
      }
      var generation := if ok then child.row.gen else child.row.obs;
      if child.row.state == state && child.row.reason == reason && child.row.obs == generation {
        assert subnets[child.id := child.row] == subnets;
        return;
      }
      subnets := subnets[child.id := child.row.(state := state, reason := reason, obs := generation)];
      AppendEvent(Event(SubnetKind, child.id, Status, NetLabel(state), child.row.gen, reason));
    }

    method SettleTurn(ghost turns: Turns, children: seq<Child>, i: nat, state: NetState, reason: string, ok: bool)
      requires i < |children| && Midway(turns, children, i, subnets, events)
      requires turns.state == state && turns.reason == reason && turns.ok == ok
      modifies this`subnets, this`events
      ensures Midway(turns, children, i + 1, subnets, events)
    {
      MidwayTurns(turns, children, i, subnets, events);
      SettleChild(children[i], state, reason, ok);
    }

    method SettleLoop(ghost turns: Turns, children: seq<Child>, state: NetState, reason: string, ok: bool)
      requires Midway(turns, children, 0, subnets, events)
      requires turns.state == state && turns.reason == reason && turns.ok == ok
      modifies this`subnets, this`events
      ensures Midway(turns, children, |children|, subnets, events)
    {
      for i := 0 to |children|
        invariant Midway(turns, children, i, subnets, events)
      {
        SettleTurn(turns, children, i, state, reason, ok);
      }
    }

    /** The child loop: every listed child is settled or removed, in order. */
    method SettleChildren(children: seq<Child>, vpc: Id, state: NetState, reason: string, ok: bool)
      requires Lists(children, KidsOf(subnets, vpc))
      modifies this`subnets, this`events
      ensures Contents() == SettledWith(old(Contents()), vpc, state, reason, ok)
    {
      ghost var turns := Turns(subnets, events, Ids(children), state, reason, ok);
      LoopStarts(turns, children, vpc);
      SettleLoop(turns, children, state, reason, ok);
      LoopEnds(turns, children, vpc, subnets, events);
    }

    method RecordTopology(id: Id, vpc: Vpc, applied: seq<Child>, ghost kids: map<Id, Subnet>,
                          failure: Option<string>) returns (outcome: Commit)
      requires Lists(applied, kids)
      modifies this
      ensures outcome == RecordTopologyTx(old(Contents()), id, vpc, kids, failure)
      ensures Contents() == if outcome.Committed? then outcome.db else old(Contents())
    {
      if id !in vpcs {
        return Stale;
      }
      var current := vpcs[id];
      if current.gen != vpc.gen || current.deleting != vpc.deleting || current.index != vpc.index {
        return Stale;
      }
      var children := ListSubnetsByVpc(id);
      var same := SameDesiredChildren(children, applied);
      PositionalIffSame(children, applied, KidsOf(subnets, id), kids);
      if !same {
        return Stale;
      }
      if vpc.deleting && failure.None? {
        if |children| != 0 {
          assert Holds(KidsOf(subnets, id), children[0]);
          return Rejected;
        }
        assert KidsOf(subnets, id) == map[];
        vpcs := vpcs - {id};
        AppendEvent(Event(VpcKind, id, Deleted, Gone, vpc.gen, ""));
        return Committed(Contents());
      }
      var ok := failure.None?;
      var state := if ok then Available else Failed;
      var reason := if ok then "" else failure.value;
      ghost var before := Contents();
      RecordVpcStatus(id, state, reason, ok);
      SettleChildren(children, id, state, reason, ok);
      outcome := Committed(Contents());
      TopologyShape(before, id, vpc, kids, failure);
    }

    method RecordRuntimeId(id: Id, gen: nat, rid: RuntimeId) returns (outcome: Commit)
      modifies this`instances
      ensures outcome == RecordRuntimeTx(old(Contents()), id, gen, rid)
      ensures Contents() == if outcome.Committed? then outcome.db else old(Contents())
    {
      if id !in instances || instances[id].gen != gen || instances[id].deleting {
        return Stale;
      }
      if instances[id].runtime.Some? && instances[id].runtime.value != rid {
        return Stale;
      }
      instances := instances[id := instances[id].(runtime := Some(rid))];
      outcome := Committed(Contents());
    }

    method RetainTerminatingRuntimeId(id: Id, rid: RuntimeId) returns (outcome: Commit)
      modifies this`instances
      ensures outcome == RetainRuntimeTx(old(Contents()), id, rid)
      ensures Contents() == if outcome.Committed? then outcome.db else old(Contents())
    {
      if id !in instances || !instances[id].deleting || instances[id].runtime.Some? {
        return Stale;
      }
      instances := instances[id := instances[id].(runtime := Some(rid))];
      outcome := Committed(Contents());
    }

    method RecordInstance(id: Id, snap: Instance, state: InstanceState, reason: string, observed: bool)
        returns (outcome: Commit)
      modifies this`instances, this`events
      ensures outcome == RecordInstanceTx(old(Contents()), id, snap, state, reason, observed)
      ensures Contents() == if outcome.Committed? then outcome.db else old(Contents())
    {
      if state != Running && state != Broken {
        return Rejected;
      }
      if observed && (state != Running || snap.runtime.None? || snap.deleting) {
        return Rejected;
      }
      if id !in instances || !SameDecision(instances[id], snap) {
        return Stale;
      }
      var current := instances[id];
      var generation := if observed then current.gen else current.obs;
      if current.state == state && current.reason == reason && current.obs == generation {
        return Committed(Contents());
      }
      instances := instances[id := current.(state := state, reason := reason, obs := generation)];
      if !current.deleting {
        var eniState, eniGeneration := Failed, current.eni.obs;
        if observed {
          eniState, eniGeneration := Available, current.eni.gen;
        }
        instances := instances[id := instances[id].(eni := current.eni.(state := eniState, reason := reason,
            obs := eniGeneration))];
      }
      AppendEvent(Event(InstanceKind, id, Status, InstanceLabel(state), current.gen, reason));
      outcome := Committed(Contents());
    }

    method FinishInstanceTermination(id: Id, snap: Instance) returns (outcome: Commit)
      modifies this`instances, this`events
      ensures outcome == FinishTerminationTx(old(Contents()), id, snap)
      ensures Contents() == if outcome.Committed? then outcome.db else old(Contents())
    {
      if id !in instances || !SameDecision(instances[id], snap) || !instances[id].deleting {
        return Stale;
      }
      var gen := instances[id].gen;
      instances := instances - {id};
      AppendEvent(Event(InstanceKind, id, Deleted, Gone, gen, ""));
      outcome := Committed(Contents());
    }
  }
}
