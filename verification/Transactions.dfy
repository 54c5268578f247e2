/** One function per store transaction: the committed database, or the reason nothing was written.
    A transaction that errors is rolled back, so every refusal carries the database unchanged. */
module Transactions {
  import opened Ipv4
  import opened Keys
  import opened Rows

  datatype Error =
    | BadCidr | ParameterMismatch | NotFound | Dependency | OutOfRange | Overlapping
    | NameTaken | IncorrectState | AddressLimit | Internal

  datatype Reply = Done(response: Response) | Refused(error: Error)

  datatype Commit = Committed(db: Db) | Stale | Rejected

  const DAY: int := 24 * 60 * 60

  // ---- Idempotency ----

  datatype Lookup = Miss | Hit(response: Response) | Mismatch

  function LoadReplay(db: Db, slot: Slot, payload: Payload, now: int): Lookup {
    if slot.key == "" || slot !in db.replays then Miss
    else if db.replays[slot].expires <= now then Miss
    else if db.replays[slot].payload != payload then Mismatch
    else Hit(db.replays[slot].response)
  }

  function SaveReplay(db: Db, slot: Slot, payload: Payload, response: Response, now: int): Db {
    if slot.key == "" then db
    else db.(replays := db.replays[slot := Replay(payload, response, now + DAY)])
  }

  // ---- API transactions ----

  function CreateVpcTx(db: Db, id: Id, name: string, raw: Prefix, key: string, now: int): (Db, Reply)
    requires Valid(raw)
  {
    match ParseCidr(raw)
    case None => (db, Refused(BadCidr))
    case Some(cidr) =>
      var slot, payload := Slot(CreateVpcOp, key), VpcPayload(name, cidr);
      match LoadReplay(db, slot, payload, now)
      case Hit(response) => (db, Done(response))
      case Mismatch => (db, Refused(ParameterMismatch))
      case Miss =>
        if exists v :: v in db.vpcs && db.vpcs[v].name == name then (db, Refused(NameTaken))
        else if id in db.issued then (db, Refused(Internal))
        else
          var row := Vpc(name, cidr, |db.issued| + 1, Pending, "", false, 1, 0);
          var next := db.(vpcs := db.vpcs[id := row], issued := db.issued + [id],
                          events := db.events + [Event(VpcKind, id, Created, NetLabel(Pending), 1, "")]);
          (SaveReplay(next, slot, payload, VpcResponse(id, row), now), Done(VpcResponse(id, row)))
  }

  function DeleteVpcTx(db: Db, id: Id): (Db, Reply) {
    if id !in db.vpcs then (db, Refused(NotFound))
    else if KidsOf(db.subnets, id) != map[] then (db, Refused(Dependency))
    else if db.vpcs[id].deleting then (db, Done(VpcResponse(id, db.vpcs[id])))
    else
      var row := MarkVpc(db.vpcs[id]);
      (db.(vpcs := db.vpcs[id := row],
           events := db.events + [Event(VpcKind, id, MarkedDeleting, NetLabel(Deleting), row.gen, "")]),
       Done(VpcResponse(id, row)))
  }

  function CreateSubnetTx(db: Db, id: Id, vpc: Id, name: string, raw: Prefix, zone: string, key: string,
                          now: int): (Db, Reply)
    requires Valid(raw)
    requires forall v :: v in db.vpcs ==> db.vpcs[v].cidr.bits <= 32
    requires forall s :: s in db.subnets ==> db.subnets[s].cidr.bits <= 32
  {
    match ParseCidr(raw)
    case None => (db, Refused(BadCidr))
    case Some(cidr) =>
      var slot, payload := Slot(CreateSubnetOp, key), SubnetPayload(name, vpc, cidr, zone);
      match LoadReplay(db, slot, payload, now)
      case Hit(response) => (db, Done(response))
      case Mismatch => (db, Refused(ParameterMismatch))
      case Miss =>
        if vpc !in db.vpcs then (db, Refused(NotFound))
        else if db.vpcs[vpc].deleting then (db, Refused(Dependency))
        else if !RangeOk(db.vpcs[vpc].cidr, cidr) then (db, Refused(OutOfRange))
        else if exists s :: s in db.subnets && db.subnets[s].vpc == vpc && Overlaps(cidr, db.subnets[s].cidr) then
          (db, Refused(Overlapping))
        else if exists s :: s in db.subnets && db.subnets[s].name == name then (db, Refused(NameTaken))
        else if id in db.issued then (db, Refused(Internal))
        else
          var row := Subnet(vpc, name, cidr, |db.issued| + 1, Pending, "", false, 1, 0);
          var next := db.(subnets := db.subnets[id := row], issued := db.issued + [id],
                          events := db.events + [Event(SubnetKind, id, Created, NetLabel(Pending), 1, "")]);
          (SaveReplay(next, slot, payload, SubnetResponse(id, row), now), Done(SubnetResponse(id, row)))
  }

  function DeleteSubnetTx(db: Db, id: Id): (Db, Reply) {
    if id !in db.subnets then (db, Refused(NotFound))
    else if exists i :: i in db.instances && db.instances[i].subnet == id then (db, Refused(Dependency))
    else if db.subnets[id].deleting then (db, Done(SubnetResponse(id, db.subnets[id])))
    else
      var row := MarkSubnet(db.subnets[id]);
      (db.(subnets := db.subnets[id := row],
           events := db.events + [Event(SubnetKind, id, MarkedDeleting, NetLabel(Deleting), row.gen, "")]),
       Done(SubnetResponse(id, row)))
  }

  function RunInstanceTx(db: Db, id: Id, eniId: Id, subnet: Id, name: string, key: string, now: int): (Db, Reply)
    requires forall s :: s in db.subnets ==> Valid(db.subnets[s].cidr)
  {
    var slot, payload := Slot(RunInstanceOp, key), InstancePayload(name, subnet);
    match LoadReplay(db, slot, payload, now)
    case Hit(response) => (db, Done(response))
    case Mismatch => (db, Refused(ParameterMismatch))
    case Miss =>
      if subnet !in db.subnets then (db, Refused(NotFound))
      else if db.subnets[subnet].deleting then (db, Refused(IncorrectState))
      else if exists i :: i in db.instances && db.instances[i].name == name then (db, Refused(NameTaken))
      else
        match NextAddress(db.subnets[subnet].cidr, UsedAddresses(db.instances, subnet))
        case Exhausted => (db, Refused(AddressLimit))
        case NotCanonical => (db, Refused(Internal))
        case Leased(ip) =>
          if id in db.issued || eniId in db.issued || id == eniId then (db, Refused(Internal))
          else
            var eni := Eni(eniId, |db.issued| + 2, ip, Pending, "", 1, 0);
            var row := Instance(subnet, name, |db.issued| + 1, Booting, "", false, 1, 0, None, eni);
            var next := db.(instances := db.instances[id := row], issued := db.issued + [id, eniId],
                            events := db.events + [Event(InstanceKind, id, Created, InstanceLabel(Booting), 1, "")]);
            (SaveReplay(next, slot, payload, InstanceResponse(id, row), now), Done(InstanceResponse(id, row)))
  }

  function TerminateTx(db: Db, id: Id): (Db, Reply) {
    if id !in db.instances then (db, Refused(NotFound))
    else if db.instances[id].deleting then (db, Done(InstanceResponse(id, db.instances[id])))
    else
      var row := MarkInstance(db.instances[id]);
      (db.(instances := db.instances[id := row],
           events := db.events + [Event(InstanceKind, id, Terminating, InstanceLabel(ShuttingDown), row.gen, "")]),
       Done(InstanceResponse(id, row)))
  }

  // ---- Reconciler commits ----

  /** sameDesiredChildren: identities, generations, deletion intent and indexes, and nothing else. */
  predicate SameChildren(current: map<Id, Subnet>, applied: map<Id, Subnet>) {
    current.Keys == applied.Keys &&
    forall c :: c in current ==>
      current[c].gen == applied[c].gen && current[c].deleting == applied[c].deleting &&
        current[c].index == applied[c].index
  }

  function ChildEvent(id: Id, s: Subnet, state: NetState, reason: string, ok: bool): seq<Event> {
    if s.deleting && ok then [Event(SubnetKind, id, Deleted, Gone, s.gen, "")]
    else if SettleSubnet(s, state, reason, ok) == s then []
    else [Event(SubnetKind, id, Status, NetLabel(state), s.gen, reason)]
  }

  function ChildEvents(subnets: map<Id, Subnet>, ids: seq<Id>, state: NetState, reason: string, ok: bool): seq<Event>
    requires forall c :: c in ids ==> c in subnets
  {
    if ids == [] then []
    else ChildEvent(ids[0], subnets[ids[0]], state, reason, ok) + ChildEvents(subnets, ids[1..], state, reason, ok)
  }

  /** The subnet rows once every child of `vpc` has been settled, and its deleted children removed. */
  function SettledSubnets(subnets: map<Id, Subnet>, vpc: Id, state: NetState, reason: string,
                          ok: bool): map<Id, Subnet> {
    map s | s in subnets && !(subnets[s].vpc == vpc && subnets[s].deleting && ok) ::
      if subnets[s].vpc == vpc then SettleSubnet(subnets[s], state, reason, ok) else subnets[s]
  }

  function RecordTopologyTx(db: Db, id: Id, vpc: Vpc, kids: map<Id, Subnet>, failure: Option<string>): Commit {
    if id !in db.vpcs then Stale
    else
      var current := db.vpcs[id];
      var children := KidsOf(db.subnets, id);
      if current.gen != vpc.gen || current.deleting != vpc.deleting || current.index != vpc.index then Stale
      else if !SameChildren(children, kids) then Stale
      else if vpc.deleting && failure.None? then
        if children != map[] then Rejected
        else Committed(db.(vpcs := db.vpcs - {id},
                           events := db.events + [Event(VpcKind, id, Deleted, Gone, vpc.gen, "")]))
      else
        var ok := failure.None?;
        var state := if ok then Available else Failed;
        var reason := if ok then "" else failure.value;
        var settled := SettleVpc(current, state, reason, ok);
        var first := if settled == current then []
          else [Event(VpcKind, id, Status, NetLabel(state), current.gen, reason)];
        Committed(db.(vpcs := db.vpcs[id := settled],
                      subnets := SettledSubnets(db.subnets, id, state, reason, ok),
                      events := db.events + first + ChildEvents(db.subnets, Listing(children.Keys), state, reason, ok)))
  }

  function RecordRuntimeTx(db: Db, id: Id, gen: nat, rid: RuntimeId): Commit {
    if id in db.instances && db.instances[id].gen == gen && !db.instances[id].deleting &&
       (db.instances[id].runtime.None? || db.instances[id].runtime == Some(rid))
    then Committed(db.(instances := db.instances[id := db.instances[id].(runtime := Some(rid))]))
    else Stale
  }

  function RetainRuntimeTx(db: Db, id: Id, rid: RuntimeId): Commit {
    if id in db.instances && db.instances[id].deleting && db.instances[id].runtime.None?
    then Committed(db.(instances := db.instances[id := db.instances[id].(runtime := Some(rid))]))
    else Stale
  }

  predicate SameDecision(a: Instance, b: Instance) {
    a.gen == b.gen && a.deleting == b.deleting && a.subnet == b.subnet && a.index == b.index &&
    a.runtime == b.runtime && a.eni.id == b.eni.id && a.eni.index == b.eni.index && a.eni.ip == b.eni.ip
  }

  function RecordInstanceTx(db: Db, id: Id, snap: Instance, state: InstanceState, reason: string,
                            observed: bool): Commit {
    if state != Running && state != Broken then Rejected
    else if observed && (state != Running || snap.runtime.None? || snap.deleting) then Rejected
    else if id !in db.instances || !SameDecision(db.instances[id], snap) then Stale
    else
      var current := db.instances[id];
      var obs := if observed then current.gen else current.obs;
      if current.state == state && current.reason == reason && current.obs == obs then Committed(db)
      else Committed(db.(instances := db.instances[id := SettleInstance(current, state, reason, observed)],
                         events := db.events + [Event(InstanceKind, id, Status, InstanceLabel(state), current.gen,
                                                      reason)]))
  }

  function FinishTerminationTx(db: Db, id: Id, snap: Instance): Commit {
    if id !in db.instances || !SameDecision(db.instances[id], snap) || !db.instances[id].deleting then Stale
    else Committed(db.(instances := db.instances - {id},
                       events := db.events + [Event(InstanceKind, id, Deleted, Gone, db.instances[id].gen, "")]))
  }
}
