/** The firewall compiler: desired state in, ruleset out, and what the kernel makes of the ruleset. */
module Firewall {
  import opened Ipv4
  import opened Sorting

  type Iface = string

  // ---- Desired state ----

  /** A rule's address range; empty text and 0.0.0.0/0 both mean anywhere. */
  datatype Range = Anywhere | Within(net: Prefix)

  datatype SgRule = SgRule(id: string, protocol: string, lo: nat, hi: nat, range: Range, group: string)
  datatype NaclRule = NaclRule(id: string, number: int, egress: bool, protocol: string, lo: nat, hi: nat,
                               range: Range, allow: bool)
  datatype Eni = Eni(id: string, iface: Iface, ip: nat, subnet: string, ingress: seq<SgRule>, egress: seq<SgRule>)
  datatype Subnet = Subnet(name: string, nacl: seq<NaclRule>)
  datatype Mapping = Mapping(id: string, inside: string, outside: string)
  datatype Desired = Desired(subnets: seq<Subnet>, enis: seq<Eni>, resolver: string, gateway: Iface,
                             nat11: seq<Mapping>)

  // ---- Rulesets ----

  datatype Chain = AntiSpoof | Forward | SgIn(iface: Iface) | SgOut(iface: Iface)
                 | NaclIn(subnet: string) | NaclOut(subnet: string)

  datatype Match =
    | IifIs(iface: Iface)
    | SourceIsNot(ip: nat)
    | IifIn(subnet: string) | IifNotIn(subnet: string)
    | OifIn(subnet: string) | OifNotIn(subnet: string)
    | SourceIn(net: Prefix) | TargetIn(net: Prefix)
    | SourceInGroup(group: string) | TargetInGroup(group: string)
    | Protocol(name: string)
    | Ports(name: string, lo: nat, hi: nat)
    | CommonProtocols
    | Established
    | Invalid

  datatype Verdict = Accept | Drop | Return | Jump(chain: Chain) | EgressMap | IngressMap

  /** The comment of a rule: which source rule, or which default, is responsible. */
  datatype Note = Plain | SpoofNote(eni: string) | GroupNote(id: string) | GroupDeny(eni: string, ingress: bool)
                | EntryNote(id: string, number: int) | NaclDeny(subnet: string)

  /** A rule takes its verdict when all its matches hold; the comment names the rule it came from. */
  datatype Rule = Rule(matches: seq<Match>, verdict: Verdict, note: Note)

  datatype SetDef = SetDef(subnet: string, members: seq<Iface>)
  datatype Binding = Binding(iface: Iface, chain: Chain)
  datatype ChainDef = ChainDef(chain: Chain, rules: seq<Rule>)

  /** The table, section by section in the order of the text. */
  datatype Ruleset = Ruleset(sets: seq<SetDef>, egress: seq<Binding>, ingress: seq<Binding>, nat11: seq<Mapping>,
                             gateway: Iface, antispoof: seq<Rule>, forward: seq<Rule>, groups: seq<ChainDef>,
                               nacls: seq<ChainDef>, resolver: string)

  // ---- Rendering one rule ----

  const ALL: string := "-1"

  function ProtoMatch(protocol: string, lo: nat, hi: nat): seq<Match> {
    if protocol == ALL || protocol == "" then []
    else if protocol == "icmp" then [Protocol("icmp")]
    else if protocol == "tcp" || protocol == "udp" then
      if lo == 0 && hi == 0 then [Protocol(protocol)] else [Ports(protocol, lo, hi)]
    else [Protocol(protocol)]
  }

  function RangeMatch(range: Range, source: bool): seq<Match> {
    if range.Anywhere? then [] else if source then [SourceIn(range.net)] else [TargetIn(range.net)]
  }

  function OrCommon(parts: seq<Match>): seq<Match> {
    if parts == [] then [CommonProtocols] else parts
  }

  function SgMatch(r: SgRule, ingress: bool): seq<Match> {
    var group := if r.group == "" then [] else if ingress then [SourceInGroup(r.group)] else [TargetInGroup(r.group)];
    OrCommon(RangeMatch(r.range, ingress) + group + ProtoMatch(r.protocol, r.lo, r.hi))
  }

  function NaclMatch(r: NaclRule): seq<Match> {
    OrCommon(RangeMatch(r.range, !r.egress) + ProtoMatch(r.protocol, r.lo, r.hi))
  }

  // ---- Rendering the table ----

  function ByIface(): (Eni, Eni) -> bool { (a: Eni, b: Eni) => Before(a.iface, b.iface) }
  function ByName(): (Subnet, Subnet) -> bool { (a: Subnet, b: Subnet) => Before(a.name, b.name) }
  function ById(): (SgRule, SgRule) -> bool { (a: SgRule, b: SgRule) => Before(a.id, b.id) }
  function ByNumber(): (NaclRule, NaclRule) -> bool { (a: NaclRule, b: NaclRule) => a.number < b.number }
  function ByInside(): (Mapping, Mapping) -> bool { (a: Mapping, b: Mapping) => Before(a.inside, b.inside) }

  function Members(enis: seq<Eni>, subnet: string): seq<Iface> {
    if enis == [] then []
    else (if enis[0].subnet == subnet then [enis[0].iface] else []) + Members(enis[1..], subnet)
  }

  function SubnetSets(subnets: seq<Subnet>, enis: seq<Eni>): seq<SetDef> {
    if subnets == [] then []
    else [SetDef(subnets[0].name, Sort(Members(enis, subnets[0].name), Before))] + SubnetSets(subnets[1..], enis)
  }

  function EgressBindings(enis: seq<Eni>): seq<Binding> {
    if enis == [] then [] else [Binding(enis[0].iface, SgOut(enis[0].iface))] + EgressBindings(enis[1..])
  }

  function IngressBindings(enis: seq<Eni>): seq<Binding> {
    if enis == [] then [] else [Binding(enis[0].iface, SgIn(enis[0].iface))] + IngressBindings(enis[1..])
  }

  function SpoofRules(enis: seq<Eni>): seq<Rule> {
    if enis == [] then []
    else [Rule([IifIs(enis[0].iface), SourceIsNot(enis[0].ip)], Drop, SpoofNote(enis[0].id))] + SpoofRules(enis[1..])
  }

  function Boundary(s: Subnet): seq<Rule> {
    [Rule([IifIn(s.name), OifNotIn(s.name)], Jump(NaclOut(s.name)), Plain),
     Rule([OifIn(s.name), IifNotIn(s.name)], Jump(NaclIn(s.name)), Plain)]
  }

  function Boundaries(subnets: seq<Subnet>): seq<Rule> {
    if subnets == [] then [] else Boundary(subnets[0]) + Boundaries(subnets[1..])
  }

  function Stateful(): seq<Rule> {
    [Rule([Established], Accept, Plain), Rule([Invalid], Drop, Plain), Rule([], EgressMap, Plain),
     Rule([], IngressMap, Plain), Rule([], Accept, Plain)]
  }

  function ForwardRules(subnets: seq<Subnet>): seq<Rule> {
    [Rule([], Jump(AntiSpoof), Plain)] + (Boundaries(subnets) + Stateful())
  }

  function AllowRules(rules: seq<SgRule>, ingress: bool): seq<Rule> {
    if rules == [] then []
    else [Rule(SgMatch(rules[0], ingress), Return, GroupNote(rules[0].id))] + AllowRules(rules[1..], ingress)
  }

  function GroupChain(eni: string, rules: seq<SgRule>, ingress: bool): seq<Rule> {
    AllowRules(Sort(rules, ById()), ingress) + [Rule([], Drop, GroupDeny(eni, ingress))]
  }

  function GroupChains(enis: seq<Eni>): seq<ChainDef> {
    if enis == [] then []
    else [ChainDef(SgIn(enis[0].iface), GroupChain(enis[0].id, enis[0].ingress, true)),
          ChainDef(SgOut(enis[0].iface), GroupChain(enis[0].id, enis[0].egress, false))] + GroupChains(enis[1..])
  }

  function Side(rules: seq<NaclRule>, egress: bool): seq<NaclRule> {
    if rules == [] then [] else (if rules[0].egress == egress then [rules[0]] else []) + Side(rules[1..], egress)
  }

  function EntryRules(rules: seq<NaclRule>): seq<Rule> {
    if rules == [] then []
    else [Rule(NaclMatch(rules[0]), if rules[0].allow then Return else Drop,
               EntryNote(rules[0].id, rules[0].number))] + EntryRules(rules[1..])
  }

  function NaclChain(s: Subnet, egress: bool): seq<Rule> {
    EntryRules(Sort(Side(s.nacl, egress), ByNumber())) + [Rule([], Drop, NaclDeny(s.name))]
  }

  function NaclChains(subnets: seq<Subnet>): seq<ChainDef> {
    if subnets == [] then []
    else [ChainDef(NaclIn(subnets[0].name), NaclChain(subnets[0], false)),
          ChainDef(NaclOut(subnets[0].name), NaclChain(subnets[0], true))] + NaclChains(subnets[1..])
  }

  /** The ruleset of a desired state. */
  function Rendered(v: Desired): Ruleset {
    var enis, subnets := Sort(v.enis, ByIface()), Sort(v.subnets, ByName());
    Ruleset(SubnetSets(subnets, enis), EgressBindings(enis), IngressBindings(enis), Sort(v.nat11, ByInside()),
            v.gateway,
            SpoofRules(enis), ForwardRules(subnets), GroupChains(enis), NaclChains(subnets), v.resolver)
  }

  // ---- The kernel ----

  datatype Tracked = New | EstablishedOrRelated | Bogus
  datatype Packet = Packet(iif: Iface, oif: Iface, source: nat, target: nat, protocol: string, port: nat,
                           tracked: Tracked)

  /** The named address sets that security-group references point at. */
  type Groups = string -> set<nat>

  function SetOf(sets: seq<SetDef>, subnet: string): seq<Iface> {
    if sets == [] then [] else if sets[0].subnet == subnet then sets[0].members else SetOf(sets[1..], subnet)
  }

  function Lookup(bindings: seq<Binding>, iface: Iface): Option<Chain> {
    if bindings == [] then None else if bindings[0].iface == iface then Some(bindings[0].chain)
      else Lookup(bindings[1..], iface)
  }

  function Find(chains: seq<ChainDef>, chain: Chain): seq<Rule> {
    if chains == [] then [] else if chains[0].chain == chain then chains[0].rules else Find(chains[1..], chain)
  }

  function RulesOf(rs: Ruleset, chain: Chain): seq<Rule> {
    match chain
    case AntiSpoof => rs.antispoof
    case Forward => rs.forward
    case SgIn(_) => Find(rs.groups, chain)
    case SgOut(_) => Find(rs.groups, chain)
    case NaclIn(_) => Find(rs.nacls, chain)
    case NaclOut(_) => Find(rs.nacls, chain)
  }

  predicate InNet(net: Prefix, a: nat) {
    net.bits <= 32 && Contains(net, a)
  }

  predicate Holds(sets: seq<SetDef>, m: Match, p: Packet, groups: Groups) {
    match m
    case IifIs(iface) => p.iif == iface
    case SourceIsNot(ip) => p.source != ip
    case IifIn(s) => p.iif in SetOf(sets, s)
    case IifNotIn(s) => p.iif !in SetOf(sets, s)
    case OifIn(s) => p.oif in SetOf(sets, s)
    case OifNotIn(s) => p.oif !in SetOf(sets, s)
    case SourceIn(net) => InNet(net, p.source)
    case TargetIn(net) => InNet(net, p.target)
    case SourceInGroup(g) => p.source in groups(g)
    case TargetInGroup(g) => p.target in groups(g)
    case Protocol(name) => p.protocol == name
    case Ports(name, lo, hi) => p.protocol == name && lo <= p.port <= hi
    case CommonProtocols => p.protocol == "tcp" || p.protocol == "udp" || p.protocol == "icmp"
    case Established => p.tracked.EstablishedOrRelated?
    case Invalid => p.tracked.Bogus?
  }

  predicate AllHold(sets: seq<SetDef>, ms: seq<Match>, p: Packet, groups: Groups) {
    forall i :: 0 <= i < |ms| ==> Holds(sets, ms[i], p, groups)
  }

  datatype Outcome = Accepted | Dropped | Continues

  /** The kernel's limit on nested jumps. */
  const JUMPS: nat := 16

  /** Rules in order; a jump that comes back, by return or at the end of its chain, goes on after it. */
  function Run(rs: Ruleset, rules: seq<Rule>, p: Packet, groups: Groups, depth: nat): Outcome
    decreases depth, |rules|, 0
  {
    if rules == [] then Continues
    else if !AllHold(rs.sets, rules[0].matches, p, groups) then Run(rs, rules[1..], p, groups, depth)
    else
      match rules[0].verdict
      case Accept => Accepted
      case Drop => Dropped
      case Return => Continues
      case Jump(chain) => After(rs, Some(chain), rules[1..], p, groups, depth)
      case EgressMap => After(rs, Lookup(rs.egress, p.iif), rules[1..], p, groups, depth)
      case IngressMap => After(rs, Lookup(rs.ingress, p.oif), rules[1..], p, groups, depth)
  }

  function After(rs: Ruleset, chain: Option<Chain>, rest: seq<Rule>, p: Packet, groups: Groups, depth: nat): Outcome
    decreases depth, |rest|, 1
  {
    if chain.None? then Run(rs, rest, p, groups, depth)
    else if depth == 0 then Dropped
    else
      var inner := Run(rs, RulesOf(rs, chain.value), p, groups, depth - 1);
      if inner.Continues? then Run(rs, rest, p, groups, depth) else inner
  }

  /** The forward hook: its policy drops what no rule decided. */
  predicate Forwards(rs: Ruleset, p: Packet, groups: Groups) {
    Run(rs, rs.forward, p, groups, JUMPS).Accepted?
  }
}
