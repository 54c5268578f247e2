/** What every transaction keeps: the shape of the rows, the references between them, the address
    plan, and the event log as a journal of the rows. */
module StoreInvariant {
  import opened Ipv4
  import opened Rows

  predicate Indexed(issued: seq<Id>, id: Id, index: Index) {
    1 <= index <= |issued| && issued[index - 1] == id
  }

  predicate VpcOk(issued: seq<Id>, id: Id, v: Vpc) {
    Indexed(issued, id, v.index) && v.obs <= v.gen && (v.deleting ==> v.obs < v.gen) &&
    (v.state == Available ==> !v.deleting && v.obs == v.gen)
  }

  predicate SubnetOk(issued: seq<Id>, id: Id, s: Subnet) {
    Indexed(issued, id, s.index) && s.obs <= s.gen && (s.deleting ==> s.obs < s.gen) &&
    (s.state == Available ==> !s.deleting && s.obs == s.gen)
  }

  predicate EniUp(e: Eni) {
    e.state == Available && e.obs == e.gen
  }

  predicate InstanceOk(issued: seq<Id>, id: Id, i: Instance) {
    Indexed(issued, id, i.index) && Indexed(issued, i.eni.id, i.eni.index) && i.eni.index == i.index + 1 &&
    i.obs <= i.gen && i.eni.obs <= i.eni.gen && (i.deleting ==> i.obs < i.gen) &&
    (i.state == Running ==> !i.deleting && i.obs == i.gen && i.runtime.Some? && i.reason == "" && EniUp(i.eni))
  }

  ghost predicate VpcRows(issued: seq<Id>, vpcs: map<Id, Vpc>) {
    forall v :: v in vpcs ==> VpcOk(issued, v, vpcs[v])
  }

  ghost predicate SubnetRows(issued: seq<Id>, subnets: map<Id, Subnet>) {
    forall s :: s in subnets ==> SubnetOk(issued, s, subnets[s])
  }

  ghost predicate InstanceRows(issued: seq<Id>, instances: map<Id, Instance>) {
    forall i :: i in instances ==> InstanceOk(issued, i, instances[i])
  }

  /** Deletion runs in reverse order of creation: a referenced row exists and is not being deleted. */
  ghost predicate SubnetRefs(vpcs: map<Id, Vpc>, subnets: map<Id, Subnet>) {
    forall s :: s in subnets ==> subnets[s].vpc in vpcs && !vpcs[subnets[s].vpc].deleting
  }

  ghost predicate InstanceRefs(subnets: map<Id, Subnet>, instances: map<Id, Instance>) {
    forall i :: i in instances ==> instances[i].subnet in subnets && !subnets[instances[i].subnet].deleting
  }

  /** The address plan: canonical ranges, subnets inside their VPC, siblings apart. */
  ghost predicate Nested(vpcs: map<Id, Vpc>, s: Subnet) {
    Canonical(s.cidr) && s.vpc in vpcs && Canonical(vpcs[s.vpc].cidr) && RangeOk(vpcs[s.vpc].cidr, s.cidr)
  }

  ghost predicate Apart(s: Subnet, t: Subnet) {
    s.vpc == t.vpc ==> s.cidr.bits <= 32 && t.cidr.bits <= 32 && !Overlaps(s.cidr, t.cidr)
  }

  ghost predicate PlanOk(vpcs: map<Id, Vpc>, subnets: map<Id, Subnet>) {
    && (forall v {:trigger Canonical(vpcs[v].cidr)} :: v in vpcs ==> Canonical(vpcs[v].cidr))
    && (forall s {:trigger Nested(vpcs, subnets[s])} :: s in subnets ==> Nested(vpcs, subnets[s]))
    && (forall s, t {:trigger Apart(subnets[s], subnets[t])} ::
          s in subnets && t in subnets && s != t ==> Apart(subnets[s], subnets[t]))
  }

  ghost predicate LeaseOk(subnets: map<Id, Subnet>, i: Instance) {
    i.subnet in subnets && Canonical(subnets[i.subnet].cidr) && Assignable(subnets[i.subnet].cidr, i.eni.ip)
  }

  predicate LeaseApart(i: Instance, j: Instance) {
    i.subnet == j.subnet ==> i.eni.ip != j.eni.ip
  }

  ghost predicate LeasesOk(subnets: map<Id, Subnet>, instances: map<Id, Instance>) {
    && (forall i {:trigger LeaseOk(subnets, instances[i])} :: i in instances ==> LeaseOk(subnets, instances[i]))
    && (forall i, j {:trigger LeaseApart(instances[i], instances[j])} ::
          i in instances && j in instances && i != j ==> LeaseApart(instances[i], instances[j]))
  }

  // ---- The event log as a journal ----

  datatype Key = Key(kind: Kind, id: Id)
  datatype Shown = Shown(shown: Label, gen: nat, message: string)

  function Apply(j: map<Key, Shown>, e: Event): map<Key, Shown> {
    if e.verb == Deleted then j - {Key(e.kind, e.id)}
    else j[Key(e.kind, e.id) := Shown(e.shown, e.gen, e.message)]
  }

  /** Reading the log from the start: the last event of each resource, dropped once it says deleted. */
  function Fold(events: seq<Event>): map<Key, Shown> {
    if events == [] then map[]
    else Apply(Fold(events[..|events| - 1]), events[|events| - 1])
  }

  function ShownVpc(v: Vpc): Shown { Shown(NetLabel(v.state), v.gen, v.reason) }
  function ShownSubnet(s: Subnet): Shown { Shown(NetLabel(s.state), s.gen, s.reason) }
  function ShownInstance(i: Instance): Shown { Shown(InstanceLabel(i.state), i.gen, i.reason) }

  ghost predicate VpcJournal(j: map<Key, Shown>, vpcs: map<Id, Vpc>) {
    && (forall v :: Key(VpcKind, v) in j <==> v in vpcs)
    && (forall v :: v in vpcs ==> j[Key(VpcKind, v)] == ShownVpc(vpcs[v]))
  }

  ghost predicate SubnetJournal(j: map<Key, Shown>, subnets: map<Id, Subnet>) {
    && (forall s :: Key(SubnetKind, s) in j <==> s in subnets)
    && (forall s :: s in subnets ==> j[Key(SubnetKind, s)] == ShownSubnet(subnets[s]))
  }

  ghost predicate InstanceJournal(j: map<Key, Shown>, instances: map<Id, Instance>) {
    && (forall i :: Key(InstanceKind, i) in j <==> i in instances)
    && (forall i :: i in instances ==> j[Key(InstanceKind, i)] == ShownInstance(instances[i]))
  }

  /** The journal holds exactly the live rows, each as it stands. */
  ghost predicate Journals(j: map<Key, Shown>, db: Db) {
    VpcJournal(j, db.vpcs) && SubnetJournal(j, db.subnets) && InstanceJournal(j, db.instances)
  }

  ghost predicate RowsOk(db: Db) {
    VpcRows(db.issued, db.vpcs) && SubnetRows(db.issued, db.subnets) && InstanceRows(db.issued, db.instances)
  }

  ghost predicate RefsOk(db: Db) {
    SubnetRefs(db.vpcs, db.subnets) && InstanceRefs(db.subnets, db.instances)
  }

  ghost predicate DbInv(db: Db) {
    RowsOk(db) && RefsOk(db) && PlanOk(db.vpcs, db.subnets) && LeasesOk(db.subnets, db.instances) &&
    Journals(Fold(db.events), db)
  }

  // ---- How a database may change ----

  predicate VpcEvolves(a: Vpc, b: Vpc) {
    a.index == b.index && a.cidr == b.cidr && a.name == b.name && a.gen <= b.gen && a.obs <= b.obs &&
    (a.deleting ==> b.deleting)
  }

  predicate SubnetEvolves(a: Subnet, b: Subnet) {
    a.vpc == b.vpc && a.index == b.index && a.cidr == b.cidr && a.name == b.name && a.gen <= b.gen && a.obs <= b.obs &&
    (a.deleting ==> b.deleting)
  }

  predicate InstanceEvolves(a: Instance, b: Instance) {
    a.subnet == b.subnet && a.index == b.index && a.name == b.name && a.gen <= b.gen && a.obs <= b.obs &&
    (a.deleting ==> b.deleting) && (a.runtime.Some? ==> b.runtime == a.runtime) &&
    a.eni.id == b.eni.id && a.eni.index == b.eni.index && a.eni.ip == b.eni.ip
  }

  ghost predicate VpcsEvolve(issued: seq<Id>, a: map<Id, Vpc>, b: map<Id, Vpc>) {
    forall v :: v in b && v in issued ==> v in a && VpcEvolves(a[v], b[v])
  }

  ghost predicate SubnetsEvolve(issued: seq<Id>, a: map<Id, Subnet>, b: map<Id, Subnet>) {
    forall s :: s in b && s in issued ==> s in a && SubnetEvolves(a[s], b[s])
  }

  ghost predicate InstancesEvolve(issued: seq<Id>, a: map<Id, Instance>, b: map<Id, Instance>) {
    forall i :: i in b && i in issued ==> i in a && InstanceEvolves(a[i], b[i])
  }

  /** Identities are permanent, generations grow, deletion intent is never revoked, a runtime id is
      written once, a removed row never returns, and the log only grows. */
  ghost predicate Evolves(a: Db, b: Db) {
    a.issued <= b.issued && a.events <= b.events &&
    VpcsEvolve(a.issued, a.vpcs, b.vpcs) && SubnetsEvolve(a.issued, a.subnets, b.subnets) &&
    InstancesEvolve(a.issued, a.instances, b.instances)
  }

  lemma EvolvesTransitive(a: Db, b: Db, c: Db)
    requires Evolves(a, b) && Evolves(b, c)
    ensures Evolves(a, c)
  {
    assert forall x :: x in a.issued ==> x in b.issued;
  }
}
