/** The rows of the store and the values the reconcilers pass around. */
module Rows {
  import opened Ipv4

  /** Resource ids are fixed-width hexadecimal text; only their identity and order matter here. */
  type Id = nat
  /** A short kernel index, allocated once and never reused. */
  type Index = nat
  type RuntimeId = nat

  /** The largest index that fits the name of a namespace. */
  const MAX_INDEX: nat := 99999999

  datatype NetState = Pending | Available | Deleting | Failed
  datatype InstanceState = Booting | Running | ShuttingDown | Broken

  datatype Vpc = Vpc(name: string, cidr: Prefix, index: Index,
                     state: NetState, reason: string, deleting: bool, gen: nat, obs: nat)

  datatype Subnet = Subnet(vpc: Id, name: string, cidr: Prefix, index: Index,
                           state: NetState, reason: string, deleting: bool, gen: nat, obs: nat)

  datatype Eni = Eni(id: Id, index: Index, ip: nat, state: NetState, reason: string, gen: nat, obs: nat)

  /** An instance row together with its single primary ENI row. */
  datatype Instance = Instance(subnet: Id, name: string, index: Index,
                               state: InstanceState, reason: string, deleting: bool, gen: nat, obs: nat,
                               runtime: Option<RuntimeId>, eni: Eni)

  datatype Kind = VpcKind | SubnetKind | InstanceKind
  datatype Label = NetLabel(net: NetState) | InstanceLabel(inst: InstanceState) | Gone
  datatype Verb = Created | MarkedDeleting | Terminating | Status | Deleted
  datatype Event = Event(kind: Kind, id: Id, verb: Verb, shown: Label, gen: nat, message: string)

  datatype Operation = CreateVpcOp | CreateSubnetOp | RunInstanceOp
  datatype Slot = Slot(op: Operation, key: string)
  /** The canonical request; equality stands for equality of its SHA-256 digest. */
  datatype Payload =
    | VpcPayload(name: string, cidr: Prefix)
    | SubnetPayload(name: string, vpc: Id, cidr: Prefix, zone: string)
    | InstancePayload(name: string, subnet: Id)
  datatype Response =
    | VpcResponse(id: Id, vpc: Vpc)
    | SubnetResponse(id: Id, subnet: Subnet)
    | InstanceResponse(id: Id, instance: Instance)
  datatype Replay = Replay(payload: Payload, response: Response, expires: int)

  /** `issued` is the kernel_indexes table: entry n-1 holds the resource that owns index n. */
  datatype Db = Db(vpcs: map<Id, Vpc>, subnets: map<Id, Subnet>, instances: map<Id, Instance>,
                   issued: seq<Id>, events: seq<Event>, replays: map<Slot, Replay>)

  function MarkVpc(v: Vpc): Vpc {
    v.(state := Deleting, reason := "", deleting := true, gen := v.gen + 1)
  }

  function MarkSubnet(s: Subnet): Subnet {
    s.(state := Deleting, reason := "", deleting := true, gen := s.gen + 1)
  }

  function MarkInstance(i: Instance): Instance {
    i.(state := ShuttingDown, reason := "", deleting := true, gen := i.gen + 1)
  }

  function SettleVpc(v: Vpc, state: NetState, reason: string, observed: bool): Vpc {
    v.(state := state, reason := reason, obs := if observed then v.gen else v.obs)
  }

  function SettleSubnet(s: Subnet, state: NetState, reason: string, observed: bool): Subnet {
    s.(state := state, reason := reason, obs := if observed then s.gen else s.obs)
  }

  /** A live row also moves its ENI; a terminating row leaves the ENI alone. */
  function SettleInstance(i: Instance, state: InstanceState, reason: string, observed: bool): Instance {
    var eni :=
      if i.deleting then i.eni
      else i.eni.(state := if observed then Available else Failed, reason := reason,
                  obs := if observed then i.eni.gen else i.eni.obs);
    i.(state := state, reason := reason, obs := if observed then i.gen else i.obs, eni := eni)
  }

  function KidsOf(subnets: map<Id, Subnet>, vpc: Id): map<Id, Subnet> {
    map s | s in subnets && subnets[s].vpc == vpc :: subnets[s]
  }

  function UsedAddresses(instances: map<Id, Instance>, subnet: Id): set<nat> {
    set i | i in instances && instances[i].subnet == subnet :: instances[i].eni.ip
  }
}
