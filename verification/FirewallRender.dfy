/** The renderer as it works, loop by loop, and that its output does not depend on the order in which
    the desired state is listed. */
module FirewallRender {
  import opened Sorting
  import opened Firewall
  import opened FirewallPolicy

  // ---- The loops ----

  method SubnetMembers(enis: seq<Eni>, subnet: string) returns (members: seq<Iface>)
    ensures members == Members(enis, subnet)
  {
    members := [];
    for j := 0 to |enis|
      invariant members + Members(enis[j..], subnet) == Members(enis, subnet)
    {
      assert enis[j..][1..] == enis[j + 1..];
      if enis[j].subnet == subnet {
        members := members + [enis[j].iface];
      }
    }
    assert enis[|enis|..] == [];
  }

  method RenderSubnetSets(subnets: seq<Subnet>, enis: seq<Eni>) returns (sets: seq<SetDef>)
    ensures sets == SubnetSets(subnets, enis)
  {
    sets := [];
    for i := 0 to |subnets|
      invariant sets + SubnetSets(subnets[i..], enis) == SubnetSets(subnets, enis)
    {
      var members := SubnetMembers(enis, subnets[i].name);
      assert subnets[i..][1..] == subnets[i + 1..];
      sets := sets + [SetDef(subnets[i].name, Sort(members, Before))];
    }
    assert subnets[|subnets|..] == [];
  }

  method RenderSgMaps(enis: seq<Eni>) returns (egress: seq<Binding>, ingress: seq<Binding>)
    ensures egress == EgressBindings(enis) && ingress == IngressBindings(enis)
  {
    egress, ingress := [], [];
    for i := 0 to |enis|
      invariant egress + EgressBindings(enis[i..]) == EgressBindings(enis)
      invariant ingress + IngressBindings(enis[i..]) == IngressBindings(enis)
    {
      assert enis[i..][1..] == enis[i + 1..];
      egress := egress + [Binding(enis[i].iface, SgOut(enis[i].iface))];
      ingress := ingress + [Binding(enis[i].iface, SgIn(enis[i].iface))];
    }
  }

  method RenderAntispoof(enis: seq<Eni>) returns (rules: seq<Rule>)
    ensures rules == SpoofRules(enis)
  {
    rules := [];
    for i := 0 to |enis|
      invariant rules + SpoofRules(enis[i..]) == SpoofRules(enis)
    {
      assert enis[i..][1..] == enis[i + 1..];
      rules := rules + [Rule([IifIs(enis[i].iface), SourceIsNot(enis[i].ip)], Drop, SpoofNote(enis[i].id))];
    }
  }

  method RenderForward(subnets: seq<Subnet>) returns (rules: seq<Rule>)
    ensures rules == ForwardRules(subnets)
  {
    rules := [Rule([], Jump(AntiSpoof), Plain)];
    for i := 0 to |subnets|
      invariant rules + Boundaries(subnets[i..]) == [Rule([], Jump(AntiSpoof), Plain)] + Boundaries(subnets)
    {
      var s := subnets[i];
      assert subnets[i..][1..] == subnets[i + 1..];
      rules := rules + [Rule([IifIn(s.name), OifNotIn(s.name)], Jump(NaclOut(s.name)), Plain),
                        Rule([OifIn(s.name), IifNotIn(s.name)], Jump(NaclIn(s.name)), Plain)];
    }
    assert subnets[|subnets|..] == [];
    assert rules == [Rule([], Jump(AntiSpoof), Plain)] + Boundaries(subnets);
    var rest := [Rule([Established], Accept, Plain), Rule([Invalid], Drop, Plain), Rule([], EgressMap, Plain),
                 Rule([], IngressMap, Plain), Rule([], Accept, Plain)];
    assert rules + rest == [Rule([], Jump(AntiSpoof), Plain)] + (Boundaries(subnets) + rest);
    rules := rules + rest;
  }

  method RenderGroupChain(eni: string, rules: seq<SgRule>, ingress: bool) returns (chain: seq<Rule>)
    ensures chain == GroupChain(eni, rules, ingress)
  {
    var allows := RenderAllows(Sort(rules, ById()), ingress);
    chain := allows + [Rule([], Drop, GroupDeny(eni, ingress))];
  }

  lemma AllowRulesSplit(rules: seq<SgRule>, ingress: bool, i: nat, done: seq<Rule>, all: seq<Rule>)
    requires i < |rules| && done + AllowRules(rules[i..], ingress) == all
    ensures (done + [Rule(SgMatch(rules[i], ingress), Return, GroupNote(rules[i].id))]) +
            AllowRules(rules[i + 1..], ingress) == all
  {
    assert rules[i..][1..] == rules[i + 1..];
  }

  method RenderAllows(rules: seq<SgRule>, ingress: bool) returns (chain: seq<Rule>)
    ensures chain == AllowRules(rules, ingress)
  {
    chain := [];
    for i := 0 to |rules|
      invariant chain + AllowRules(rules[i..], ingress) == AllowRules(rules, ingress)
    {
      AllowRulesSplit(rules, ingress, i, chain, AllowRules(rules, ingress));
      chain := chain + [Rule(SgMatch(rules[i], ingress), Return, GroupNote(rules[i].id))];
    }
    assert rules[|rules|..] == [];
  }

  lemma GroupChainsSplit(enis: seq<Eni>, i: nat, done: seq<ChainDef>, all: seq<ChainDef>)
    requires i < |enis| && done + GroupChains(enis[i..]) == all
    ensures
      var e := enis[i];
      var two := [ChainDef(SgIn(e.iface), GroupChain(e.id, e.ingress, true)),
                  ChainDef(SgOut(e.iface), GroupChain(e.id, e.egress, false))];
      (done + two) + GroupChains(enis[i + 1..]) == all
  {
    assert enis[i..][1..] == enis[i + 1..];
  }

  method RenderSgChains(enis: seq<Eni>) returns (chains: seq<ChainDef>)
    ensures chains == GroupChains(enis)
  {
    chains := [];
    for i := 0 to |enis|
      invariant chains + GroupChains(enis[i..]) == GroupChains(enis)
    {
      var e := enis[i];
      GroupChainsSplit(enis, i, chains, GroupChains(enis));
      var into := RenderGroupChain(e.id, e.ingress, true);
      var out := RenderGroupChain(e.id, e.egress, false);
      chains := chains + [ChainDef(SgIn(e.iface), into), ChainDef(SgOut(e.iface), out)];
    }
  }

  method OneSide(nacl: seq<NaclRule>, egress: bool) returns (rules: seq<NaclRule>)
    ensures rules == Side(nacl, egress)
  {
    rules := [];
    for i := 0 to |nacl|
      invariant rules + Side(nacl[i..], egress) == Side(nacl, egress)
    {
      assert nacl[i..][1..] == nacl[i + 1..];
      if nacl[i].egress == egress {
        rules := rules + [nacl[i]];
      }
    }
    assert nacl[|nacl|..] == [];
  }

  method RenderNaclChain(s: Subnet, egress: bool) returns (chain: seq<Rule>)
    ensures chain == NaclChain(s, egress)
  {
    var rules := OneSide(s.nacl, egress);
    var entries := RenderEntries(Sort(rules, ByNumber()));
    chain := entries + [Rule([], Drop, NaclDeny(s.name))];
  }

  lemma EntryRulesSplit(rules: seq<NaclRule>, i: nat, done: seq<Rule>, all: seq<Rule>)
    requires i < |rules| && done + EntryRules(rules[i..]) == all
    ensures
      var verdict := if rules[i].allow then Return else Drop;
      (done + [Rule(NaclMatch(rules[i]), verdict, EntryNote(rules[i].id, rules[i].number))]) +
        EntryRules(rules[i + 1..]) == all
  {
    assert rules[i..][1..] == rules[i + 1..];
  }

  method RenderEntries(rules: seq<NaclRule>) returns (chain: seq<Rule>)
    ensures chain == EntryRules(rules)
  {
    chain := [];
    for i := 0 to |rules|
      invariant chain + EntryRules(rules[i..]) == EntryRules(rules)
    {
      EntryRulesSplit(rules, i, chain, EntryRules(rules));
      var verdict := if rules[i].allow then Return else Drop;
      chain := chain + [Rule(NaclMatch(rules[i]), verdict, EntryNote(rules[i].id, rules[i].number))];
    }
    assert rules[|rules|..] == [];
  }

  method RenderNaclChains(subnets: seq<Subnet>) returns (chains: seq<ChainDef>)
    ensures chains == NaclChains(subnets)
  {
    chains := [];
    for i := 0 to |subnets|
      invariant chains + NaclChains(subnets[i..]) == NaclChains(subnets)
    {
      assert subnets[i..][1..] == subnets[i + 1..];
      var into := RenderNaclChain(subnets[i], false);
      var out := RenderNaclChain(subnets[i], true);
      chains := chains + [ChainDef(NaclIn(subnets[i].name), into), ChainDef(NaclOut(subnets[i].name), out)];
    }
  }

  method Render(v: Desired) returns (rs: Ruleset)
    ensures rs == Rendered(v)
  {
    var enis, subnets := Sort(v.enis, ByIface()), Sort(v.subnets, ByName());
    var sets := RenderSubnetSets(subnets, enis);
    var egress, ingress := RenderSgMaps(enis);
    var antispoof := RenderAntispoof(enis);
    var forward := RenderForward(subnets);
    var groups := RenderSgChains(enis);
    var nacls := RenderNaclChains(subnets);
    rs := Ruleset(sets, egress, ingress, Sort(v.nat11, ByInside()), v.gateway, antispoof, forward, groups, nacls,
                  v.resolver);
  }

  // ---- Canonical output ----

  lemma NamesOrder(a: string, b: string, c: string)
    ensures a == b || Before(a, b) || Before(b, a)
    ensures !(Before(a, b) && Before(b, a))
    ensures Before(a, b) && Before(b, c) ==> Before(a, c)
  {
    BeforeTotal(a, b);
    if Before(a, b) && Before(b, c) {
      BeforeTransitive(a, b, c);
    }
  }

  lemma EnisOrdered(all: set<Eni>)
    requires forall a, b :: a in all && b in all && a.iface == b.iface ==> a == b
    ensures NoTies(all, ByIface())
  {
    forall a: Eni, b: Eni, c: Eni
      ensures (Before(a.iface, b.iface) || Before(b.iface, a.iface) || a.iface == b.iface) &&
      !(Before(a.iface, b.iface) && Before(b.iface, a.iface)) &&
        (Before(a.iface, b.iface) && Before(b.iface, c.iface) ==> Before(a.iface, c.iface))
    {
      NamesOrder(a.iface, b.iface, c.iface);
    }
  }

  lemma SubnetsOrdered(all: set<Subnet>)
    requires forall a, b :: a in all && b in all && a.name == b.name ==> a == b
    ensures NoTies(all, ByName())
  {
    forall a: Subnet, b: Subnet, c: Subnet
      ensures (Before(a.name, b.name) || Before(b.name, a.name) || a.name == b.name) &&
      !(Before(a.name, b.name) && Before(b.name, a.name)) &&
        (Before(a.name, b.name) && Before(b.name, c.name) ==> Before(a.name, c.name))
    {
      NamesOrder(a.name, b.name, c.name);
    }
  }

  lemma RulesOrdered(all: set<SgRule>)
    requires forall a, b :: a in all && b in all && a.id == b.id ==> a == b
    ensures NoTies(all, ById())
  {
    forall a: SgRule, b: SgRule, c: SgRule ensures (Before(a.id, b.id) || Before(b.id, a.id) || a.id == b.id) &&
      !(Before(a.id, b.id) && Before(b.id, a.id)) && (Before(a.id, b.id) && Before(b.id, c.id) ==> Before(a.id, c.id))
    {
      NamesOrder(a.id, b.id, c.id);
    }
  }

  lemma MappingsOrdered(all: set<Mapping>)
    requires forall a, b :: a in all && b in all && a.inside == b.inside ==> a == b
    ensures NoTies(all, ByInside())
  {
    forall a: Mapping, b: Mapping, c: Mapping
      ensures (Before(a.inside, b.inside) || Before(b.inside, a.inside) || a.inside == b.inside) &&
      !(Before(a.inside, b.inside) && Before(b.inside, a.inside)) &&
        (Before(a.inside, b.inside) && Before(b.inside, c.inside) ==> Before(a.inside, c.inside))
    {
      NamesOrder(a.inside, b.inside, c.inside);
    }
  }

  ghost predicate MappingsDiffer(ms: seq<Mapping>) {
    forall a, b :: a in ms && b in ms && a.inside == b.inside ==> a == b
  }

  /** The same ENIs, subnets and mappings, listed in another order. */
  ghost predicate Reordered(v: Desired, w: Desired) {
    multiset(v.enis) == multiset(w.enis) && multiset(v.subnets) == multiset(w.subnets) &&
      multiset(v.nat11) == multiset(w.nat11) &&
    v.resolver == w.resolver && v.gateway == w.gateway
  }

  /** Reordering the lists of the desired state changes nothing in the output. */
  lemma ReorderingIsInvisible(v: Desired, w: Desired)
    requires WellKeyed(v) && MappingsDiffer(v.nat11) && Reordered(v, w)
    ensures Rendered(v) == Rendered(w)
  {
    var enis, subnets, maps := set e | e in v.enis, set s | s in v.subnets, set m | m in v.nat11;
    EnisOrdered(enis);
    SubnetsOrdered(subnets);
    MappingsOrdered(maps);
    SortCanonical(v.enis, w.enis, ByIface(), enis);
    SortCanonical(v.subnets, w.subnets, ByName(), subnets);
    SortCanonical(v.nat11, w.nat11, ByInside(), maps);
  }

  // ---- Rules listed in another order inside an ENI or an ACL ----

  ghost predicate IdsDiffer(rules: seq<SgRule>) {
    forall a, b :: a in rules && b in rules && a.id == b.id ==> a == b
  }

  ghost predicate SameEni(a: Eni, b: Eni) {
    a == b.(ingress := a.ingress, egress := a.egress) && multiset(a.ingress) == multiset(b.ingress) &&
      multiset(a.egress) == multiset(b.egress) &&
    IdsDiffer(a.ingress) && IdsDiffer(a.egress)
  }

  ghost predicate SameSubnet(a: Subnet, b: Subnet) {
    a.name == b.name && multiset(a.nacl) == multiset(b.nacl) && NumbersDiffer(a.nacl)
  }

  ghost predicate SameEnis(xs: seq<Eni>, ys: seq<Eni>) {
    |xs| == |ys| && forall i :: 0 <= i < |xs| ==> SameEni(xs[i], ys[i])
  }

  ghost predicate SameSubnets(xs: seq<Subnet>, ys: seq<Subnet>) {
    |xs| == |ys| && forall i :: 0 <= i < |xs| ==> SameSubnet(xs[i], ys[i])
  }

  lemma SameRulesSorted(xs: seq<SgRule>, ys: seq<SgRule>)
    requires multiset(xs) == multiset(ys) && IdsDiffer(xs)
    ensures Sort(xs, ById()) == Sort(ys, ById())
  {
    var all := set r | r in xs;
    RulesOrdered(all);
    SortCanonical(xs, ys, ById(), all);
  }

  lemma SameGroupChain(eni: string, xs: seq<SgRule>, ys: seq<SgRule>, ingress: bool)
    requires multiset(xs) == multiset(ys) && IdsDiffer(xs)
    ensures GroupChain(eni, xs, ingress) == GroupChain(eni, ys, ingress)
  {
    SameRulesSorted(xs, ys);
  }

  lemma {:induction false} SideCounts(xs: seq<NaclRule>, egress: bool, r: NaclRule)
    ensures multiset(Side(xs, egress))[r] == if r.egress == egress then multiset(xs)[r] else 0
  {
    if xs != [] {
      assert xs == [xs[0]] + xs[1..];
      SideCounts(xs[1..], egress, r);
    }
  }

  lemma SameSide(xs: seq<NaclRule>, ys: seq<NaclRule>, egress: bool)
    requires multiset(xs) == multiset(ys)
    ensures multiset(Side(xs, egress)) == multiset(Side(ys, egress))
  {
    forall r ensures multiset(Side(xs, egress))[r] == multiset(Side(ys, egress))[r] {
      SideCounts(xs, egress, r);
      SideCounts(ys, egress, r);
    }
  }

  lemma SameRulesTidied(xs: seq<NaclRule>, ys: seq<NaclRule>, egress: bool)
    requires multiset(xs) == multiset(ys) && NumbersDiffer(xs)
    ensures Sort(Side(xs, egress), ByNumber()) == Sort(Side(ys, egress), ByNumber())
  {
    var side := Side(xs, egress);
    var all := set r | r in side;
    SideMeans(xs, egress);
    SameSide(xs, ys, egress);
    assert NoTies(all, ByNumber());
    SortCanonical(side, Side(ys, egress), ByNumber(), all);
  }

  lemma SameNaclChain(a: Subnet, b: Subnet, egress: bool)
    requires SameSubnet(a, b)
    ensures NaclChain(a, egress) == NaclChain(b, egress)
  {
    SameRulesTidied(a.nacl, b.nacl, egress);
  }

  lemma {:induction false} PutSameEnis(x: Eni, y: Eni, xs: seq<Eni>, ys: seq<Eni>)
    requires SameEni(x, y) && SameEnis(xs, ys)
    ensures SameEnis(Put(x, xs, ByIface()), Put(y, ys, ByIface()))
  {
    if xs != [] {
      assert SameEni(xs[0], ys[0]);
      PutSameEnis(x, y, xs[1..], ys[1..]);
    }
  }

  lemma {:induction false} SortSameEnis(xs: seq<Eni>, ys: seq<Eni>)
    requires SameEnis(xs, ys)
    ensures SameEnis(Sort(xs, ByIface()), Sort(ys, ByIface()))
  {
    if xs != [] {
      SortSameEnis(xs[1..], ys[1..]);
      PutSameEnis(xs[0], ys[0], Sort(xs[1..], ByIface()), Sort(ys[1..], ByIface()));
    }
  }

  lemma {:induction false} PutSameSubnets(x: Subnet, y: Subnet, xs: seq<Subnet>, ys: seq<Subnet>)
    requires SameSubnet(x, y) && SameSubnets(xs, ys)
    ensures SameSubnets(Put(x, xs, ByName()), Put(y, ys, ByName()))
  {
    if xs != [] {
      assert SameSubnet(xs[0], ys[0]);
      PutSameSubnets(x, y, xs[1..], ys[1..]);
    }
  }

  lemma {:induction false} SortSameSubnets(xs: seq<Subnet>, ys: seq<Subnet>)
    requires SameSubnets(xs, ys)
    ensures SameSubnets(Sort(xs, ByName()), Sort(ys, ByName()))
  {
    if xs != [] {
      SortSameSubnets(xs[1..], ys[1..]);
      PutSameSubnets(xs[0], ys[0], Sort(xs[1..], ByName()), Sort(ys[1..], ByName()));
    }
  }

  lemma {:induction false} SameEniSections(xs: seq<Eni>, ys: seq<Eni>)
    requires SameEnis(xs, ys)
    ensures EgressBindings(xs) == EgressBindings(ys) && IngressBindings(xs) == IngressBindings(ys)
    ensures SpoofRules(xs) == SpoofRules(ys) && GroupChains(xs) == GroupChains(ys)
  {
    if xs != [] {
      assert SameEni(xs[0], ys[0]);
      SameGroupChain(xs[0].id, xs[0].ingress, ys[0].ingress, true);
      SameGroupChain(xs[0].id, xs[0].egress, ys[0].egress, false);
      SameEniSections(xs[1..], ys[1..]);
    }
  }

  lemma {:induction false} SameMembers(xs: seq<Eni>, ys: seq<Eni>, subnet: string)
    requires SameEnis(xs, ys)
    ensures Members(xs, subnet) == Members(ys, subnet)
  {
    if xs != [] {
      assert SameEni(xs[0], ys[0]);
      SameMembers(xs[1..], ys[1..], subnet);
    }
  }

  lemma {:induction false} SameSubnetSections(xs: seq<Subnet>, ys: seq<Subnet>, enis: seq<Eni>, enis': seq<Eni>)
    requires SameSubnets(xs, ys) && SameEnis(enis, enis')
    ensures SubnetSets(xs, enis) == SubnetSets(ys, enis') && Boundaries(xs) == Boundaries(ys) &&
            NaclChains(xs) == NaclChains(ys)
  {
    if xs != [] {
      assert SameSubnet(xs[0], ys[0]);
      SameMembers(enis, enis', xs[0].name);
      SameNaclChain(xs[0], ys[0], false);
      SameNaclChain(xs[0], ys[0], true);
      SameSubnetSections(xs[1..], ys[1..], enis, enis');
    }
  }

  /** Listing the group rules of an ENI or the entries of an ACL in another order changes nothing. */
  lemma InnerOrderIsInvisible(v: Desired, w: Desired)
    requires SameEnis(v.enis, w.enis) && SameSubnets(v.subnets, w.subnets)
    requires v.nat11 == w.nat11 && v.resolver == w.resolver && v.gateway == w.gateway
    ensures Rendered(v) == Rendered(w)
  {
    SortSameEnis(v.enis, w.enis);
    SortSameSubnets(v.subnets, w.subnets);
    SameEniSections(Sort(v.enis, ByIface()), Sort(w.enis, ByIface()));
    SameSubnetSections(Sort(v.subnets, ByName()), Sort(w.subnets, ByName()), Sort(v.enis, ByIface()),
                       Sort(w.enis, ByIface()));
  }

  // ---- Any rearrangement at all ----

  /** An ENI and a subnet without the order of their lists. */
  datatype EniShape = EniShape(id: string, iface: Iface, ip: nat, subnet: string, ingress: multiset<SgRule>,
                               egress: multiset<SgRule>)
  datatype SubnetShape = SubnetShape(name: string, nacl: multiset<NaclRule>)

  function ShapeOfEni(e: Eni): EniShape {
    EniShape(e.id, e.iface, e.ip, e.subnet, multiset(e.ingress), multiset(e.egress))
  }

  function ShapeOfSubnet(s: Subnet): SubnetShape {
    SubnetShape(s.name, multiset(s.nacl))
  }

  /** The same desired state, whatever the order of any list in it. */
  ghost predicate Rearranged(v: Desired, w: Desired) {
    && multiset(Each(v.enis, ShapeOfEni)) == multiset(Each(w.enis, ShapeOfEni))
    && multiset(Each(v.subnets, ShapeOfSubnet)) == multiset(Each(w.subnets, ShapeOfSubnet))
    && multiset(v.nat11) == multiset(w.nat11) && v.resolver == w.resolver && v.gateway == w.gateway
  }

  /** No key is repeated: interfaces, subnet names, inside addresses, rule ids within one ENI and
      direction, entry numbers within one ACL and direction. */
  ghost predicate FullyKeyed(v: Desired) {
    WellKeyed(v) && MappingsDiffer(v.nat11) && forall e :: e in v.enis ==> IdsDiffer(e.ingress) && IdsDiffer(e.egress)
  }

  function TidyEni(e: Eni): Eni {
    e.(ingress := Sort(e.ingress, ById()), egress := Sort(e.egress, ById()))
  }

  function TidyRules(nacl: seq<NaclRule>): seq<NaclRule> {
    Sort(Side(nacl, false), ByNumber()) + Sort(Side(nacl, true), ByNumber())
  }

  function TidySubnet(s: Subnet): Subnet {
    Subnet(s.name, TidyRules(s.nacl))
  }

  /** Every inner list sorted, the outer ones as they are. */
  function Tidied(v: Desired): Desired {
    v.(enis := Each(v.enis, TidyEni), subnets := Each(v.subnets, TidySubnet))
  }

  lemma TidyRulesContents(nacl: seq<NaclRule>)
    ensures multiset(TidyRules(nacl)) == multiset(nacl)
  {
    SortContents(Side(nacl, false), ByNumber());
    SortContents(Side(nacl, true), ByNumber());
    forall r ensures multiset(TidyRules(nacl))[r] == multiset(nacl)[r] {
      SideCounts(nacl, false, r);
      SideCounts(nacl, true, r);
    }
  }

  lemma TidyEniSame(e: Eni)
    requires IdsDiffer(e.ingress) && IdsDiffer(e.egress)
    ensures SameEni(e, TidyEni(e))
  {
    SortContents(e.ingress, ById());
    SortContents(e.egress, ById());
  }

  lemma TidySubnetSame(s: Subnet)
    requires NumbersDiffer(s.nacl)
    ensures SameSubnet(s, TidySubnet(s))
  {
    TidyRulesContents(s.nacl);
  }

  lemma NumbersStayApart(xs: seq<NaclRule>, ys: seq<NaclRule>)
    requires multiset(xs) == multiset(ys) && NumbersDiffer(xs)
    ensures NumbersDiffer(ys)
  {
    SameContents(xs, ys);
  }

  lemma IdsStayApart(xs: seq<SgRule>, ys: seq<SgRule>)
    requires multiset(xs) == multiset(ys) && IdsDiffer(xs)
    ensures IdsDiffer(ys)
  {
    SameContents(xs, ys);
  }

  lemma EachComesFrom<T, S>(xs: seq<T>, f: T -> S, y: S) returns (x: T)
    requires y in Each(xs, f)
    ensures x in xs && f(x) == y
  {
    var i :| 0 <= i < |xs| && Each(xs, f)[i] == y;
    x := xs[i];
  }

  lemma TidiedEnisKeyed(v: Desired, a: Eni, b: Eni)
    requires WellKeyed(v) && a in Each(v.enis, TidyEni) && b in Each(v.enis, TidyEni) && a.iface == b.iface
    ensures a == b
  {
    var x := EachComesFrom(v.enis, TidyEni, a);
    var y := EachComesFrom(v.enis, TidyEni, b);
  }

  lemma TidiedSubnetsKeyed(v: Desired, a: Subnet, b: Subnet)
    requires WellKeyed(v) && a in Each(v.subnets, TidySubnet) && b in Each(v.subnets, TidySubnet) && a.name == b.name
    ensures a == b
  {
    var x := EachComesFrom(v.subnets, TidySubnet, a);
    var y := EachComesFrom(v.subnets, TidySubnet, b);
  }

  lemma TidiedNumbersDiffer(v: Desired, s: Subnet)
    requires WellKeyed(v) && s in Each(v.subnets, TidySubnet)
    ensures NumbersDiffer(s.nacl)
  {
    var x := EachComesFrom(v.subnets, TidySubnet, s);
    TidyRulesContents(x.nacl);
    NumbersStayApart(x.nacl, s.nacl);
  }

  lemma TidiedIsKeyed(v: Desired)
    requires WellKeyed(v)
    ensures WellKeyed(Tidied(v))
  {
    var w := Tidied(v);
    forall a, b | a in w.enis && b in w.enis && a.iface == b.iface ensures a == b {
      TidiedEnisKeyed(v, a, b);
    }
    forall a, b | a in w.subnets && b in w.subnets && a.name == b.name ensures a == b {
      TidiedSubnetsKeyed(v, a, b);
    }
    forall s | s in w.subnets ensures NumbersDiffer(s.nacl) {
      TidiedNumbersDiffer(v, s);
    }
  }

  lemma ShapeDecidesEni(a: Eni, b: Eni)
    requires IdsDiffer(a.ingress) && IdsDiffer(a.egress) && ShapeOfEni(a) == ShapeOfEni(b)
    ensures TidyEni(a) == TidyEni(b)
  {
    SameRulesSorted(a.ingress, b.ingress);
    SameRulesSorted(a.egress, b.egress);
  }

  lemma ShapeDecidesSubnet(a: Subnet, b: Subnet)
    requires NumbersDiffer(a.nacl) && ShapeOfSubnet(a) == ShapeOfSubnet(b)
    ensures TidySubnet(a) == TidySubnet(b)
  {
    SameRulesTidied(a.nacl, b.nacl, false);
    SameRulesTidied(a.nacl, b.nacl, true);
  }

  lemma TidiedIsReordered(v: Desired, w: Desired)
    requires FullyKeyed(v) && Rearranged(v, w)
    ensures Reordered(Tidied(v), Tidied(w))
  {
    forall a, b | a in v.enis && b in w.enis && ShapeOfEni(a) == ShapeOfEni(b) ensures TidyEni(a) == TidyEni(b) {
      ShapeDecidesEni(a, b);
    }
    forall a, b | a in v.subnets && b in w.subnets && ShapeOfSubnet(a) == ShapeOfSubnet(b)
      ensures TidySubnet(a) == TidySubnet(b)
    {
      ShapeDecidesSubnet(a, b);
    }
    EachAgrees(v.enis, w.enis, ShapeOfEni, TidyEni);
    EachAgrees(v.subnets, w.subnets, ShapeOfSubnet, TidySubnet);
  }

  /** The other arrangement repeats no key either. */
  lemma RearrangedKeyed(v: Desired, w: Desired)
    requires FullyKeyed(v) && Rearranged(v, w)
    ensures forall e :: e in w.enis ==> IdsDiffer(e.ingress) && IdsDiffer(e.egress)
    ensures forall s :: s in w.subnets ==> NumbersDiffer(s.nacl)
  {
    forall e | e in w.enis ensures IdsDiffer(e.ingress) && IdsDiffer(e.egress) {
      var f := EniBehind(v, w, e);
      IdsStayApart(f.ingress, e.ingress);
      IdsStayApart(f.egress, e.egress);
    }
    forall s | s in w.subnets ensures NumbersDiffer(s.nacl) {
      var t := SubnetBehind(v, w, s);
      NumbersStayApart(t.nacl, s.nacl);
    }
  }

  lemma EniBehind(v: Desired, w: Desired, e: Eni) returns (f: Eni)
    requires Rearranged(v, w) && e in w.enis
    ensures f in v.enis && ShapeOfEni(f) == ShapeOfEni(e)
  {
    var i :| 0 <= i < |w.enis| && w.enis[i] == e;
    assert Each(w.enis, ShapeOfEni)[i] in multiset(Each(v.enis, ShapeOfEni));
    var j := FindEach(v.enis, ShapeOfEni, ShapeOfEni(e));
    f := v.enis[j];
  }

  lemma SubnetBehind(v: Desired, w: Desired, s: Subnet) returns (t: Subnet)
    requires Rearranged(v, w) && s in w.subnets
    ensures t in v.subnets && ShapeOfSubnet(t) == ShapeOfSubnet(s)
  {
    var i :| 0 <= i < |w.subnets| && w.subnets[i] == s;
    assert Each(w.subnets, ShapeOfSubnet)[i] in multiset(Each(v.subnets, ShapeOfSubnet));
    var j := FindEach(v.subnets, ShapeOfSubnet, ShapeOfSubnet(s));
    t := v.subnets[j];
  }

  /** Tidying is invisible. */
  lemma TidyingIsInvisible(w: Desired)
    requires forall e :: e in w.enis ==> IdsDiffer(e.ingress) && IdsDiffer(e.egress)
    requires forall s :: s in w.subnets ==> NumbersDiffer(s.nacl)
    ensures Rendered(w) == Rendered(Tidied(w))
  {
    var t := Tidied(w);
    forall i | 0 <= i < |w.enis| ensures SameEni(w.enis[i], t.enis[i]) {
      TidyEniSame(w.enis[i]);
    }
    forall i | 0 <= i < |w.subnets| ensures SameSubnet(w.subnets[i], t.subnets[i]) {
      TidySubnetSame(w.subnets[i]);
    }
    InnerOrderIsInvisible(w, t);
  }

  /** Two listings of one desired state, whatever the order of any list in them, render to one table. */
  lemma RenderingIsCanonical(v: Desired, w: Desired)
    requires FullyKeyed(v) && Rearranged(v, w)
    ensures Rendered(v) == Rendered(w)
  {
    TidyingIsInvisible(v);
    TidiedIsKeyed(v);
    TidiedIsReordered(v, w);
    ReorderingIsInvisible(Tidied(v), Tidied(w));
    RearrangedKeyed(v, w);
    TidyingIsInvisible(w);
  }

  // ---- Verdicts, even with repeated rule ids ----

  lemma SameGroupVerdict(xs: seq<SgRule>, ys: seq<SgRule>, ingress: bool, p: Packet, groups: Groups)
    requires multiset(xs) == multiset(ys)
    ensures GroupAllows(xs, ingress, p, groups) <==> GroupAllows(ys, ingress, p, groups)
  {
    SameContents(xs, ys);
  }

  lemma SameNaclVerdict(xs: seq<NaclRule>, ys: seq<NaclRule>, egress: bool, p: Packet)
    requires multiset(xs) == multiset(ys) && NaclAllows(xs, egress, p)
    ensures NaclAllows(ys, egress, p)
  {
    SameContents(xs, ys);
    var r :| r in xs && r.egress == egress && NaclApplies(r, p) && r.allow &&
      forall q :: q in xs && q.egress == egress && NaclApplies(q, p) ==> r.number <= q.number;
    assert r in ys;
  }

  lemma RearrangedBack(v: Desired, w: Desired)
    requires Rearranged(v, w)
    ensures Rearranged(w, v)
  {}

  lemma StillAttached(v: Desired, w: Desired, iface: Iface, subnet: string)
    requires Rearranged(v, w) && AttachedTo(w.enis, iface, subnet)
    ensures AttachedTo(v.enis, iface, subnet)
  {
    var e :| e in w.enis && e.iface == iface && e.subnet == subnet;
    var f := EniBehind(v, w, e);
  }

  lemma AttachedAlike(v: Desired, w: Desired, iface: Iface, subnet: string)
    requires Rearranged(v, w)
    ensures AttachedTo(v.enis, iface, subnet) <==> AttachedTo(w.enis, iface, subnet)
  {
    if AttachedTo(w.enis, iface, subnet) {
      StillAttached(v, w, iface, subnet);
    }
    if AttachedTo(v.enis, iface, subnet) {
      RearrangedBack(v, w);
      StillAttached(w, v, iface, subnet);
    }
  }

  lemma RearrangedSources(v: Desired, w: Desired, p: Packet, groups: Groups, e: Eni)
    requires Rearranged(v, w) && SourceChecked(v.enis, p) && e in w.enis && e.iface == p.iif
    ensures p.source == e.ip && (GroupsAllow(v.enis, p, groups) ==> GroupAllows(e.egress, false, p, groups))
  {
    var f := EniBehind(v, w, e);
    SameGroupVerdict(f.egress, e.egress, false, p, groups);
  }

  lemma RearrangedTargets(v: Desired, w: Desired, p: Packet, groups: Groups, e: Eni)
    requires Rearranged(v, w) && GroupsAllow(v.enis, p, groups) && e in w.enis && e.iface == p.oif
    ensures GroupAllows(e.ingress, true, p, groups)
  {
    var f := EniBehind(v, w, e);
    SameGroupVerdict(f.ingress, e.ingress, true, p, groups);
  }

  lemma RearrangedBoundary(v: Desired, w: Desired, p: Packet, s: Subnet)
    requires Rearranged(v, w) && AllBoundaries(v.enis, v.subnets, p) && s in w.subnets
    ensures BoundaryAllows(w.enis, s, p)
  {
    var t := SubnetBehind(v, w, s);
    AttachedAlike(v, w, p.iif, s.name);
    AttachedAlike(v, w, p.oif, s.name);
    assert BoundaryAllows(v.enis, t, p);
    if NaclAllows(t.nacl, true, p) {
      SameNaclVerdict(t.nacl, s.nacl, true, p);
    }
    if NaclAllows(t.nacl, false, p) {
      SameNaclVerdict(t.nacl, s.nacl, false, p);
    }
  }

  lemma RearrangedAllows(v: Desired, w: Desired, p: Packet, groups: Groups)
    requires Rearranged(v, w) && Allowed(v, p, groups)
    ensures Allowed(w, p, groups)
  {
    forall e | e in w.enis && e.iface == p.iif
      ensures p.source == e.ip && (GroupsAllow(v.enis, p, groups) ==> GroupAllows(e.egress, false, p, groups))
    {
      RearrangedSources(v, w, p, groups, e);
    }
    forall e | e in w.enis && e.iface == p.oif
      ensures GroupsAllow(v.enis, p, groups) ==> GroupAllows(e.ingress, true, p, groups)
    {
      if GroupsAllow(v.enis, p, groups) {
        RearrangedTargets(v, w, p, groups, e);
      }
    }
    forall s | s in w.subnets ensures BoundaryAllows(w.enis, s, p) {
      RearrangedBoundary(v, w, p, s);
    }
  }

  lemma RearrangedMeansSame(v: Desired, w: Desired, p: Packet, groups: Groups)
    requires Rearranged(v, w)
    ensures Allowed(v, p, groups) <==> Allowed(w, p, groups)
  {
    if Allowed(v, p, groups) {
      RearrangedAllows(v, w, p, groups);
    }
    if Allowed(w, p, groups) {
      RearrangedBack(v, w);
      RearrangedAllows(w, v, p, groups);
    }
  }

  /** Listing anything in another order, group rules with repeated ids included, changes no verdict. */
  lemma GroupOrderNeverMatters(v: Desired, w: Desired, p: Packet, groups: Groups)
    requires WellKeyed(v) && WellKeyed(w) && Rearranged(v, w)
    ensures Forwards(Rendered(v), p, groups) <==> Forwards(Rendered(w), p, groups)
  {
    CompilationPreservesMeaning(v, p, groups);
    CompilationPreservesMeaning(w, p, groups);
    RearrangedMeansSame(v, w, p, groups);
  }
}
