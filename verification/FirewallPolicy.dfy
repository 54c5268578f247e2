/** What the firewall is meant to allow, said without chains, and that the rendered table allows
    exactly that. */
module FirewallPolicy {
  import opened Ipv4
  import opened Sorting
  import opened Firewall

  // ---- The policy ----

  predicate RangeAllows(range: Range, a: nat) {
    range.Anywhere? || InNet(range.net, a)
  }

  predicate EveryProtocol(protocol: string) {
    protocol == ALL || protocol == ""
  }

  /** Ports count for TCP and UDP only, and 0 to 0 means all of them. */
  predicate ProtocolAllows(protocol: string, lo: nat, hi: nat, p: Packet) {
    EveryProtocol(protocol) || (p.protocol == protocol &&
      ((protocol == "tcp" || protocol == "udp") && !(lo == 0 && hi == 0) ==> lo <= p.port <= hi))
  }

  predicate Common(p: Packet) {
    p.protocol == "tcp" || p.protocol == "udp" || p.protocol == "icmp"
  }

  /** A group rule allows a packet by its peer address, its peer's group and its protocol; a rule that
      restricts nothing still only speaks of TCP, UDP and ICMP. */
  predicate SgAllows(r: SgRule, ingress: bool, p: Packet, groups: Groups) {
    var peer := if ingress then p.source else p.target;
    RangeAllows(r.range, peer) && (r.group == "" || peer in groups(r.group)) &&
      ProtocolAllows(r.protocol, r.lo, r.hi, p) &&
    (r.range.Anywhere? && r.group == "" && EveryProtocol(r.protocol) ==> Common(p))
  }

  predicate NaclApplies(r: NaclRule, p: Packet) {
    RangeAllows(r.range, if r.egress then p.target else p.source) && ProtocolAllows(r.protocol, r.lo, r.hi, p) &&
    (r.range.Anywhere? && EveryProtocol(r.protocol) ==> Common(p))
  }

  ghost predicate GroupAllows(rules: seq<SgRule>, ingress: bool, p: Packet, groups: Groups) {
    exists r :: r in rules && SgAllows(r, ingress, p, groups)
  }

  /** The applicable entry with the lowest number says allow. */
  ghost predicate NaclAllows(rules: seq<NaclRule>, egress: bool, p: Packet) {
    exists r :: r in rules && r.egress == egress && NaclApplies(r, p) && r.allow &&
      forall q :: q in rules && q.egress == egress && NaclApplies(q, p) ==> r.number <= q.number
  }

  predicate AttachedTo(enis: seq<Eni>, iface: Iface, subnet: string) {
    exists e :: e in enis && e.iface == iface && e.subnet == subnet
  }

  ghost predicate SourceChecked(enis: seq<Eni>, p: Packet) {
    forall e :: e in enis && e.iface == p.iif ==> p.source == e.ip
  }

  /** Leaving or entering the subnet, and only then, takes its network ACL's consent. */
  ghost predicate BoundaryAllows(enis: seq<Eni>, s: Subnet, p: Packet) {
    && (AttachedTo(enis, p.iif, s.name) && !AttachedTo(enis, p.oif, s.name) ==> NaclAllows(s.nacl, true, p))
    && (AttachedTo(enis, p.oif, s.name) && !AttachedTo(enis, p.iif, s.name) ==> NaclAllows(s.nacl, false, p))
  }

  ghost predicate AllBoundaries(enis: seq<Eni>, subnets: seq<Subnet>, p: Packet) {
    forall s :: s in subnets ==> BoundaryAllows(enis, s, p)
  }

  /** An interface that is no ENI has no groups and is not restricted by any. */
  ghost predicate GroupsAllow(enis: seq<Eni>, p: Packet, groups: Groups) {
    && (forall e :: e in enis && e.iface == p.iif ==> GroupAllows(e.egress, false, p, groups))
    && (forall e :: e in enis && e.iface == p.oif ==> GroupAllows(e.ingress, true, p, groups))
  }

  ghost predicate Allowed(v: Desired, p: Packet, groups: Groups) {
    && SourceChecked(v.enis, p)
    && AllBoundaries(v.enis, v.subnets, p)
    && (p.tracked.EstablishedOrRelated? || (!p.tracked.Bogus? && GroupsAllow(v.enis, p, groups)))
  }

  /** Interfaces, subnet names and, within one direction of one ACL, entry numbers are not repeated. */
  ghost predicate WellKeyed(v: Desired) {
    && (forall a, b :: a in v.enis && b in v.enis && a.iface == b.iface ==> a == b)
    && (forall a, b :: a in v.subnets && b in v.subnets && a.name == b.name ==> a == b)
    && (forall s :: s in v.subnets ==> NumbersDiffer(s.nacl))
  }

  ghost predicate NumbersDiffer(rules: seq<NaclRule>) {
    forall a, b :: a in rules && b in rules && a.egress == b.egress && a.number == b.number ==> a == b
  }

  // ---- One rule ----

  lemma HoldSplit(sets: seq<SetDef>, a: seq<Match>, b: seq<Match>, p: Packet, groups: Groups)
    ensures AllHold(sets, a + b, p, groups) <==> AllHold(sets, a, p, groups) && AllHold(sets, b, p, groups)
  {
    if AllHold(sets, a + b, p, groups) {
      forall i | 0 <= i < |a| ensures Holds(sets, a[i], p, groups) {
        assert (a + b)[i] == a[i];
      }
      forall i | 0 <= i < |b| ensures Holds(sets, b[i], p, groups) {
        assert (a + b)[|a| + i] == b[i];
      }
    }
  }

  lemma ProtoMeans(sets: seq<SetDef>, protocol: string, lo: nat, hi: nat, p: Packet, groups: Groups)
    ensures AllHold(sets, ProtoMatch(protocol, lo, hi), p, groups) <==> ProtocolAllows(protocol, lo, hi, p)
    ensures ProtoMatch(protocol, lo, hi) == [] <==> EveryProtocol(protocol)
  {
    var ms := ProtoMatch(protocol, lo, hi);
    if |ms| == 1 {
      assert AllHold(sets, ms, p, groups) <==> Holds(sets, ms[0], p, groups);
    }
  }

  lemma RangeMeans(sets: seq<SetDef>, range: Range, source: bool, p: Packet, groups: Groups)
    ensures AllHold(sets, RangeMatch(range, source), p, groups) <==>
            RangeAllows(range, if source then p.source else p.target)
  {
    var ms := RangeMatch(range, source);
    if |ms| == 1 {
      assert AllHold(sets, ms, p, groups) <==> Holds(sets, ms[0], p, groups);
    }
  }

  lemma CommonMeans(sets: seq<SetDef>, parts: seq<Match>, p: Packet, groups: Groups)
    ensures AllHold(sets, OrCommon(parts), p, groups) <==>
            AllHold(sets, parts, p, groups) && (parts == [] ==> Common(p))
  {
    assert AllHold(sets, [CommonProtocols], p, groups) <==> Holds(sets, [CommonProtocols][0], p, groups);
  }

  lemma SgMatchMeans(sets: seq<SetDef>, r: SgRule, ingress: bool, p: Packet, groups: Groups)
    ensures AllHold(sets, SgMatch(r, ingress), p, groups) <==> SgAllows(r, ingress, p, groups)
  {
    var group := if r.group == "" then [] else if ingress then [SourceInGroup(r.group)] else [TargetInGroup(r.group)];
    var range, proto := RangeMatch(r.range, ingress), ProtoMatch(r.protocol, r.lo, r.hi);
    CommonMeans(sets, range + group + proto, p, groups);
    HoldSplit(sets, range + group, proto, p, groups);
    HoldSplit(sets, range, group, p, groups);
    RangeMeans(sets, r.range, ingress, p, groups);
    ProtoMeans(sets, r.protocol, r.lo, r.hi, p, groups);
    if |group| == 1 {
      assert AllHold(sets, group, p, groups) <==> Holds(sets, group[0], p, groups);
    }
  }

  lemma NaclMatchMeans(sets: seq<SetDef>, r: NaclRule, p: Packet, groups: Groups)
    ensures AllHold(sets, NaclMatch(r), p, groups) <==> NaclApplies(r, p)
  {
    var range, proto := RangeMatch(r.range, !r.egress), ProtoMatch(r.protocol, r.lo, r.hi);
    CommonMeans(sets, range + proto, p, groups);
    HoldSplit(sets, range, proto, p, groups);
    RangeMeans(sets, r.range, !r.egress, p, groups);
    ProtoMeans(sets, r.protocol, r.lo, r.hi, p, groups);
  }

  // ---- One chain ----

  /** A group chain lets a packet through iff some rule allows it, whatever the order of the rules. */
  lemma {:induction false} GroupChainMeans(rs: Ruleset, rules: seq<SgRule>, ingress: bool, deny: Rule, p: Packet,
                                           groups: Groups, depth: nat)
    requires deny.matches == [] && deny.verdict == Drop
    ensures Run(rs, AllowRules(rules, ingress) + [deny], p, groups, depth) ==
            if GroupAllows(rules, ingress, p, groups) then Continues else Dropped
  {
    var text := AllowRules(rules, ingress) + [deny];
    if rules == [] {
      assert text[0] == deny;
    } else {
      var r, rest := rules[0], rules[1..];
      assert text[0] == Rule(SgMatch(r, ingress), Return, GroupNote(r.id));
      assert text[1..] == AllowRules(rest, ingress) + [deny];
      SgMatchMeans(rs.sets, r, ingress, p, groups);
      GroupChainMeans(rs, rest, ingress, deny, p, groups, depth);
      assert forall q :: q in rules <==> q == r || q in rest;
    }
  }

  /** The first applicable entry decides. */
  predicate FirstAllows(rules: seq<NaclRule>, p: Packet) {
    if rules == [] then false else if NaclApplies(rules[0], p) then rules[0].allow else FirstAllows(rules[1..], p)
  }

  lemma {:induction false} NaclChainRuns(rs: Ruleset, rules: seq<NaclRule>, deny: Rule, p: Packet, groups: Groups,
                                         depth: nat)
    requires deny.matches == [] && deny.verdict == Drop
    ensures Run(rs, EntryRules(rules) + [deny], p, groups, depth) ==
            if FirstAllows(rules, p) then Continues else Dropped
  {
    var text := EntryRules(rules) + [deny];
    if rules == [] {
      assert text[0] == deny;
    } else {
      var r, rest := rules[0], rules[1..];
      assert text[0] == Rule(NaclMatch(r), if r.allow then Return else Drop, EntryNote(r.id, r.number));
      assert text[1..] == EntryRules(rest) + [deny];
      NaclMatchMeans(rs.sets, r, p, groups);
      NaclChainRuns(rs, rest, deny, p, groups, depth);
    }
  }

  /** The entry with the lowest number among those that apply. */
  ghost predicate LowestAllows(rules: seq<NaclRule>, p: Packet) {
    exists r :: r in rules && NaclApplies(r, p) && r.allow && forall q :: q in rules && NaclApplies(q, p) ==>
      r.number <= q.number
  }

  /** Ascending numbers; only copies of one entry share a number. */
  ghost predicate Numbered(rules: seq<NaclRule>) {
    forall i, j :: 0 <= i < j < |rules| ==> rules[i].number < rules[j].number || rules[i] == rules[j]
  }

  lemma {:induction false} FirstIsLowest(rules: seq<NaclRule>, p: Packet)
    requires Numbered(rules)
    ensures FirstAllows(rules, p) <==> LowestAllows(rules, p)
  {
    if rules != [] {
      var r, rest := rules[0], rules[1..];
      assert forall q :: q in rules <==> q == r || q in rest;
      assert forall q :: q in rest ==> r.number < q.number || q == r;
      FirstIsLowest(rest, p);
    }
  }

  lemma {:induction false} SideMeans(rules: seq<NaclRule>, egress: bool)
    ensures forall r :: r in Side(rules, egress) <==> r in rules && r.egress == egress
  {
    if rules != [] {
      SideMeans(rules[1..], egress);
      assert forall r :: r in rules <==> r == rules[0] || r in rules[1..];
    }
  }

  lemma SortedSide(rules: seq<NaclRule>, egress: bool)
    requires NumbersDiffer(rules)
    ensures Numbered(Sort(Side(rules, egress), ByNumber()))
    ensures forall r :: r in Sort(Side(rules, egress), ByNumber()) <==> r in rules && r.egress == egress
  {
    var side := Side(rules, egress);
    var all := set r | r in side;
    SideMeans(rules, egress);
    SortMembers(side, ByNumber());
    assert NoTies(all, ByNumber()) && AllIn(side, all);
    SortSorted(side, ByNumber(), all);
    var sorted := Sort(side, ByNumber());
    forall i, j | 0 <= i < j < |sorted| ensures sorted[i].number < sorted[j].number || sorted[i] == sorted[j] {
      assert !ByNumber()(sorted[j], sorted[i]);
      assert sorted[i] in sorted && sorted[j] in sorted;
    }
  }

  /** A network ACL chain lets a packet through iff the lowest-numbered applicable entry allows it. */
  lemma NaclChainMeans(rs: Ruleset, s: Subnet, egress: bool, p: Packet, groups: Groups, depth: nat)
    requires NumbersDiffer(s.nacl)
    ensures Run(rs, NaclChain(s, egress), p, groups, depth) ==
            if NaclAllows(s.nacl, egress, p) then Continues else Dropped
  {
    var sorted := Sort(Side(s.nacl, egress), ByNumber());
    SortedSide(s.nacl, egress);
    FirstIsLowest(sorted, p);
    NaclChainRuns(rs, sorted, Rule([], Drop, NaclDeny(s.name)), p, groups, depth);
    LowestIsDeclared(s.nacl, sorted, egress, p);
  }

  lemma LowestIsDeclared(rules: seq<NaclRule>, side: seq<NaclRule>, egress: bool, p: Packet)
    requires forall r :: r in side <==> r in rules && r.egress == egress
    ensures LowestAllows(side, p) <==> NaclAllows(rules, egress, p)
  {
    if LowestAllows(side, p) {
      var r :| r in side && NaclApplies(r, p) && r.allow && forall q :: q in side && NaclApplies(q, p) ==>
        r.number <= q.number;
      assert r in rules && r.egress == egress;
    }
    if NaclAllows(rules, egress, p) {
      var r :| r in rules && r.egress == egress && NaclApplies(r, p) && r.allow &&
        forall q :: q in rules && q.egress == egress && NaclApplies(q, p) ==> r.number <= q.number;
      assert r in side;
    }
  }

  lemma GroupMeans(rs: Ruleset, eni: string, rules: seq<SgRule>, ingress: bool, p: Packet, groups: Groups, depth: nat)
    ensures Run(rs, GroupChain(eni, rules, ingress), p, groups, depth) ==
            if GroupAllows(rules, ingress, p, groups) then Continues else Dropped
  {
    SortMembers(rules, ById());
    GroupChainMeans(rs, Sort(rules, ById()), ingress, Rule([], Drop, GroupDeny(eni, ingress)), p, groups, depth);
  }

  lemma {:induction false} SpoofMeans(rs: Ruleset, enis: seq<Eni>, p: Packet, groups: Groups, depth: nat)
    ensures Run(rs, SpoofRules(enis), p, groups, depth) == if SourceChecked(enis, p) then Continues else Dropped
  {
    if enis != [] {
      var e, rest := enis[0], enis[1..];
      var rule := Rule([IifIs(e.iface), SourceIsNot(e.ip)], Drop, SpoofNote(e.id));
      assert SpoofRules(enis)[0] == rule && SpoofRules(enis)[1..] == SpoofRules(rest);
      assert AllHold(rs.sets, rule.matches, p, groups) <==>
             Holds(rs.sets, rule.matches[0], p, groups) && Holds(rs.sets, rule.matches[1], p, groups);
      SpoofMeans(rs, rest, p, groups, depth);
      assert forall x :: x in enis <==> x == e || x in rest;
    }
  }

  // ---- The table fits its lists ----

  ghost predicate SubnetFits(rs: Ruleset, enis: seq<Eni>, s: Subnet) {
    && Find(rs.nacls, NaclIn(s.name)) == NaclChain(s, false) && Find(rs.nacls, NaclOut(s.name)) == NaclChain(s, true)
    && (forall iface :: iface in SetOf(rs.sets, s.name) <==> AttachedTo(enis, iface, s.name))
  }

  ghost predicate EniFits(rs: Ruleset, e: Eni) {
    && Lookup(rs.egress, e.iface) == Some(SgOut(e.iface)) && Lookup(rs.ingress, e.iface) == Some(SgIn(e.iface))
    && Find(rs.groups, SgIn(e.iface)) == GroupChain(e.id, e.ingress, true)
    && Find(rs.groups, SgOut(e.iface)) == GroupChain(e.id, e.egress, false)
  }

  ghost predicate NoEni(enis: seq<Eni>, iface: Iface) {
    forall e :: e in enis ==> e.iface != iface
  }

  lemma FindPair(a: ChainDef, b: ChainDef, rest: seq<ChainDef>, chain: Chain)
    ensures Find([a, b] + rest, chain) ==
            if a.chain == chain then a.rules else if b.chain == chain then b.rules else Find(rest, chain)
  {
    var all := [a, b] + rest;
    assert all[1..][1..] == rest;
  }

  lemma {:induction false} NaclFound(subnets: seq<Subnet>, s: Subnet)
    requires s in subnets && forall a :: a in subnets && a.name == s.name ==> a == s
    ensures Find(NaclChains(subnets), NaclIn(s.name)) == NaclChain(s, false)
    ensures Find(NaclChains(subnets), NaclOut(s.name)) == NaclChain(s, true)
  {
    var h, rest := subnets[0], subnets[1..];
    var a, b := ChainDef(NaclIn(h.name), NaclChain(h, false)), ChainDef(NaclOut(h.name), NaclChain(h, true));
    assert h in subnets;
    FindPair(a, b, NaclChains(rest), NaclIn(s.name));
    FindPair(a, b, NaclChains(rest), NaclOut(s.name));
    if h != s {
      assert s in rest && forall x :: x in rest ==> x in subnets;
      NaclFound(rest, s);
    }
  }

  lemma {:induction false} GroupFound(enis: seq<Eni>, e: Eni)
    requires e in enis && forall a :: a in enis && a.iface == e.iface ==> a == e
    ensures Find(GroupChains(enis), SgIn(e.iface)) == GroupChain(e.id, e.ingress, true)
    ensures Find(GroupChains(enis), SgOut(e.iface)) == GroupChain(e.id, e.egress, false)
  {
    var h, rest := enis[0], enis[1..];
    var a, b := ChainDef(SgIn(h.iface), GroupChain(h.id, h.ingress, true)),
      ChainDef(SgOut(h.iface), GroupChain(h.id, h.egress, false));
    assert h in enis;
    FindPair(a, b, GroupChains(rest), SgIn(e.iface));
    FindPair(a, b, GroupChains(rest), SgOut(e.iface));
    if h != e {
      assert e in rest && forall x :: x in rest ==> x in enis;
      GroupFound(rest, e);
    }
  }

  lemma {:induction false} BindingFound(enis: seq<Eni>, iface: Iface)
    ensures Lookup(EgressBindings(enis), iface) == if NoEni(enis, iface) then None else Some(SgOut(iface))
    ensures Lookup(IngressBindings(enis), iface) == if NoEni(enis, iface) then None else Some(SgIn(iface))
  {
    if enis != [] {
      var h, rest := enis[0], enis[1..];
      assert EgressBindings(enis)[0] == Binding(h.iface, SgOut(h.iface)) &&
        EgressBindings(enis)[1..] == EgressBindings(rest);
      assert IngressBindings(enis)[0] == Binding(h.iface, SgIn(h.iface)) &&
        IngressBindings(enis)[1..] == IngressBindings(rest);
      BindingFound(rest, iface);
      assert forall e :: e in enis <==> e == h || e in rest;
    }
  }

  lemma {:induction false} MembersMeans(enis: seq<Eni>, subnet: string, iface: Iface)
    ensures iface in Members(enis, subnet) <==> AttachedTo(enis, iface, subnet)
  {
    if enis != [] {
      MembersMeans(enis[1..], subnet, iface);
      assert forall e :: e in enis <==> e == enis[0] || e in enis[1..];
    }
  }

  lemma {:induction false} SetFound(subnets: seq<Subnet>, enis: seq<Eni>, name: string)
    requires exists s :: s in subnets && s.name == name
    ensures SetOf(SubnetSets(subnets, enis), name) == Sort(Members(enis, name), Before)
  {
    var h, rest := subnets[0], subnets[1..];
    var sets := SubnetSets(subnets, enis);
    assert sets[0] == SetDef(h.name, Sort(Members(enis, h.name), Before)) && sets[1..] == SubnetSets(rest, enis);
    if h.name != name {
      var s :| s in subnets && s.name == name;
      assert s in rest;
      SetFound(rest, enis, name);
    }
  }

  lemma SubnetIsFit(v: Desired, s: Subnet)
    requires WellKeyed(v) && s in v.subnets
    ensures SubnetFits(Rendered(v), v.enis, s)
  {
    var enis, subnets := Sort(v.enis, ByIface()), Sort(v.subnets, ByName());
    SortMembers(v.enis, ByIface());
    SortMembers(v.subnets, ByName());
    NaclFound(subnets, s);
    SetFound(subnets, enis, s.name);
    forall iface ensures iface in SetOf(Rendered(v).sets, s.name) <==> AttachedTo(v.enis, iface, s.name) {
      SortMembers(Members(enis, s.name), Before);
      MembersMeans(enis, s.name, iface);
      assert AttachedTo(enis, iface, s.name) <==> AttachedTo(v.enis, iface, s.name);
    }
  }

  lemma EniIsFit(v: Desired, e: Eni)
    requires WellKeyed(v) && e in v.enis
    ensures EniFits(Rendered(v), e)
  {
    var enis := Sort(v.enis, ByIface());
    SortMembers(v.enis, ByIface());
    GroupFound(enis, e);
    BindingFound(enis, e.iface);
    assert !NoEni(enis, e.iface);
  }

  lemma StrangerIsUnbound(v: Desired, iface: Iface)
    requires NoEni(v.enis, iface)
    ensures Lookup(Rendered(v).egress, iface) == None && Lookup(Rendered(v).ingress, iface) == None
  {
    SortMembers(v.enis, ByIface());
    BindingFound(Sort(v.enis, ByIface()), iface);
  }

  // ---- The forward chain ----

  lemma PairHolds(sets: seq<SetDef>, a: Match, b: Match, p: Packet, groups: Groups)
    ensures AllHold(sets, [a, b], p, groups) <==> Holds(sets, a, p, groups) && Holds(sets, b, p, groups)
  {
    assert AllHold(sets, [a, b], p, groups) ==> Holds(sets, [a, b][0], p, groups) && Holds(sets, [a, b][1], p, groups);
  }

  /** A guarded jump to a chain that either comes back or drops. */
  lemma GuardedJump(rs: Ruleset, rule: Rule, rest: seq<Rule>, p: Packet, groups: Groups, depth: nat, pass: bool)
    requires rule.verdict.Jump? && depth > 0
    requires Run(rs, RulesOf(rs, rule.verdict.chain), p, groups, depth - 1) == if pass then Continues else Dropped
    ensures Run(rs, [rule] + rest, p, groups, depth) ==
            if AllHold(rs.sets, rule.matches, p, groups) && !pass then Dropped else Run(rs, rest, p, groups, depth)
  {
    assert ([rule] + rest)[1..] == rest;
  }

  lemma BoundaryMeans(rs: Ruleset, enis: seq<Eni>, s: Subnet, rest: seq<Rule>, p: Packet, groups: Groups, depth: nat)
    requires depth > 0 && SubnetFits(rs, enis, s) && NumbersDiffer(s.nacl)
    ensures Run(rs, Boundary(s) + rest, p, groups, depth) ==
            if BoundaryAllows(enis, s, p) then Run(rs, rest, p, groups, depth) else Dropped
  {
    var out, back := Boundary(s)[0], Boundary(s)[1];
    assert Boundary(s) + rest == [out] + ([back] + rest);
    NaclChainMeans(rs, s, true, p, groups, depth - 1);
    NaclChainMeans(rs, s, false, p, groups, depth - 1);
    GuardedJump(rs, out, [back] + rest, p, groups, depth, NaclAllows(s.nacl, true, p));
    GuardedJump(rs, back, rest, p, groups, depth, NaclAllows(s.nacl, false, p));
    PairHolds(rs.sets, IifIn(s.name), OifNotIn(s.name), p, groups);
    PairHolds(rs.sets, OifIn(s.name), IifNotIn(s.name), p, groups);
  }

  ghost predicate AllFit(rs: Ruleset, enis: seq<Eni>, subnets: seq<Subnet>) {
    forall s :: s in subnets ==> SubnetFits(rs, enis, s) && NumbersDiffer(s.nacl)
  }

  lemma SplitSubnets(rs: Ruleset, enis: seq<Eni>, subnets: seq<Subnet>, p: Packet)
    requires subnets != []
    ensures AllFit(rs, enis, subnets) ==>
            SubnetFits(rs, enis, subnets[0]) && NumbersDiffer(subnets[0].nacl) && AllFit(rs, enis, subnets[1..])
    ensures AllBoundaries(enis, subnets, p) <==>
            BoundaryAllows(enis, subnets[0], p) && AllBoundaries(enis, subnets[1..], p)
  {
    assert forall x :: x in subnets <==> x == subnets[0] || x in subnets[1..];
  }

  lemma BoundariesSplit(subnets: seq<Subnet>, rest: seq<Rule>)
    requires subnets != []
    ensures Boundaries(subnets) + rest == Boundary(subnets[0]) + (Boundaries(subnets[1..]) + rest)
  {}

  lemma BoundariesStep(rs: Ruleset, enis: seq<Eni>, subnets: seq<Subnet>, rest: seq<Rule>, p: Packet,
                       groups: Groups, depth: nat)
    requires subnets != [] && depth > 0 && SubnetFits(rs, enis, subnets[0]) && NumbersDiffer(subnets[0].nacl)
    ensures Run(rs, Boundaries(subnets) + rest, p, groups, depth) ==
            if BoundaryAllows(enis, subnets[0], p) then Run(rs, Boundaries(subnets[1..]) + rest, p, groups, depth)
              else Dropped
  {
    BoundariesSplit(subnets, rest);
    BoundaryMeans(rs, enis, subnets[0], Boundaries(subnets[1..]) + rest, p, groups, depth);
  }

  /** The outcome of the boundary rules, given the outcome of what follows. */
  lemma {:induction false} BoundariesMean(rs: Ruleset, enis: seq<Eni>, subnets: seq<Subnet>, rest: seq<Rule>,
                                          p: Packet, groups: Groups, depth: nat, tail: Outcome)
    requires depth > 0 && AllFit(rs, enis, subnets) && tail == Run(rs, rest, p, groups, depth)
    ensures Run(rs, Boundaries(subnets) + rest, p, groups, depth) ==
            if AllBoundaries(enis, subnets, p) then tail else Dropped
  {
    if subnets == [] {
      assert Boundaries(subnets) + rest == rest;
    } else {
      SplitSubnets(rs, enis, subnets, p);
      BoundariesStep(rs, enis, subnets, rest, p, groups, depth);
      BoundariesMean(rs, enis, subnets[1..], rest, p, groups, depth, tail);
    }
  }

  /** A verdict map: no entry goes on, an entry is a jump. */
  lemma MapStep(rs: Ruleset, rule: Rule, rest: seq<Rule>, p: Packet, groups: Groups, depth: nat, pass: bool)
    requires rule.matches == [] && (rule.verdict.EgressMap? || rule.verdict.IngressMap?) && depth > 0
    requires
      var chain := if rule.verdict.EgressMap? then Lookup(rs.egress, p.iif) else Lookup(rs.ingress, p.oif);
      if chain.None? then pass
      else Run(rs, RulesOf(rs, chain.value), p, groups, depth - 1) == if pass then Continues else Dropped
    ensures Run(rs, [rule] + rest, p, groups, depth) == if pass then Run(rs, rest, p, groups, depth) else Dropped
  {
    assert ([rule] + rest)[1..] == rest;
    assert AllHold(rs.sets, rule.matches, p, groups);
  }

  lemma EniRuns(v: Desired, e: Eni, p: Packet, groups: Groups, depth: nat)
    requires WellKeyed(v) && e in v.enis
    ensures
      var rs := Rendered(v);
      && Lookup(rs.egress, e.iface) == Some(SgOut(e.iface)) && Lookup(rs.ingress, e.iface) == Some(SgIn(e.iface))
      && Run(rs, RulesOf(rs, SgOut(e.iface)), p, groups, depth) ==
         (if GroupAllows(e.egress, false, p, groups) then Continues else Dropped)
      && Run(rs, RulesOf(rs, SgIn(e.iface)), p, groups, depth) ==
         (if GroupAllows(e.ingress, true, p, groups) then Continues else Dropped)
  {
    EniIsFit(v, e);
    GroupMeans(Rendered(v), e.id, e.egress, false, p, groups, depth);
    GroupMeans(Rendered(v), e.id, e.ingress, true, p, groups, depth);
  }

  lemma EgressChecked(v: Desired, p: Packet, groups: Groups, rest: seq<Rule>, depth: nat)
    requires WellKeyed(v) && depth > 0
    ensures
      var pass := forall e :: e in v.enis && e.iface == p.iif ==> GroupAllows(e.egress, false, p, groups);
      Run(Rendered(v), [Rule([], EgressMap, Plain)] + rest, p, groups, depth) ==
        if pass then Run(Rendered(v), rest, p, groups, depth) else Dropped
  {
    var rs := Rendered(v);
    if NoEni(v.enis, p.iif) {
      StrangerIsUnbound(v, p.iif);
      MapStep(rs, Rule([], EgressMap, Plain), rest, p, groups, depth, true);
    } else {
      var e :| e in v.enis && e.iface == p.iif;
      EniRuns(v, e, p, groups, depth - 1);
      MapStep(rs, Rule([], EgressMap, Plain), rest, p, groups, depth, GroupAllows(e.egress, false, p, groups));
    }
  }

  lemma IngressChecked(v: Desired, p: Packet, groups: Groups, rest: seq<Rule>, depth: nat)
    requires WellKeyed(v) && depth > 0
    ensures
      var pass := forall e :: e in v.enis && e.iface == p.oif ==> GroupAllows(e.ingress, true, p, groups);
      Run(Rendered(v), [Rule([], IngressMap, Plain)] + rest, p, groups, depth) ==
        if pass then Run(Rendered(v), rest, p, groups, depth) else Dropped
  {
    var rs := Rendered(v);
    if NoEni(v.enis, p.oif) {
      StrangerIsUnbound(v, p.oif);
      MapStep(rs, Rule([], IngressMap, Plain), rest, p, groups, depth, true);
    } else {
      var e :| e in v.enis && e.iface == p.oif;
      EniRuns(v, e, p, groups, depth - 1);
      MapStep(rs, Rule([], IngressMap, Plain), rest, p, groups, depth, GroupAllows(e.ingress, true, p, groups));
    }
  }

  lemma FilterStep(rs: Ruleset, m: Match, verdict: Verdict, rest: seq<Rule>, p: Packet, groups: Groups, depth: nat)
    requires verdict.Accept? || verdict.Drop?
    ensures Run(rs, [Rule([m], verdict, Plain)] + rest, p, groups, depth) ==
            if Holds(rs.sets, m, p, groups) then (if verdict.Accept? then Accepted else Dropped)
              else Run(rs, rest, p, groups, depth)
  {
    var rules := [Rule([m], verdict, Plain)] + rest;
    assert rules[1..] == rest;
    assert AllHold(rs.sets, [m], p, groups) <==> Holds(rs.sets, [m][0], p, groups);
  }

  lemma StatefulMeans(v: Desired, p: Packet, groups: Groups, depth: nat)
    requires WellKeyed(v) && depth > 0
    ensures Run(Rendered(v), Stateful(), p, groups, depth) ==
            if p.tracked.EstablishedOrRelated? || (!p.tracked.Bogus? && GroupsAllow(v.enis, p, groups))
              then Accepted else Dropped
  {
    var rs := Rendered(v);
    var last := [Rule([], Accept, Plain)];
    var maps := [Rule([], EgressMap, Plain)] + ([Rule([], IngressMap, Plain)] + last);
    assert Stateful() == [Rule([Established], Accept, Plain)] + ([Rule([Invalid], Drop, Plain)] + maps);
    FilterStep(rs, Established, Accept, [Rule([Invalid], Drop, Plain)] + maps, p, groups, depth);
    FilterStep(rs, Invalid, Drop, maps, p, groups, depth);
    EgressChecked(v, p, groups, [Rule([], IngressMap, Plain)] + last, depth);
    IngressChecked(v, p, groups, last, depth);
    assert Run(rs, last, p, groups, depth) == Accepted;
  }

  lemma SortedAlike(v: Desired, p: Packet)
    requires WellKeyed(v)
    ensures SourceChecked(Sort(v.enis, ByIface()), p) <==> SourceChecked(v.enis, p)
    ensures AllBoundaries(v.enis, Sort(v.subnets, ByName()), p) <==> AllBoundaries(v.enis, v.subnets, p)
    ensures AllFit(Rendered(v), v.enis, Sort(v.subnets, ByName()))
  {
    SortMembers(v.enis, ByIface());
    SortMembers(v.subnets, ByName());
    forall s | s in v.subnets ensures SubnetFits(Rendered(v), v.enis, s) && NumbersDiffer(s.nacl) {
      SubnetIsFit(v, s);
    }
  }

  /** The compiled table forwards a packet exactly when the policy allows it. */
  lemma CompilationPreservesMeaning(v: Desired, p: Packet, groups: Groups)
    requires WellKeyed(v)
    ensures Forwards(Rendered(v), p, groups) <==> Allowed(v, p, groups)
  {
    var rs := Rendered(v);
    var enis, subnets := Sort(v.enis, ByIface()), Sort(v.subnets, ByName());
    SortedAlike(v, p);
    SpoofMeans(rs, enis, p, groups, JUMPS - 1);
    GuardedJump(rs, Rule([], Jump(AntiSpoof), Plain), Boundaries(subnets) + Stateful(), p, groups, JUMPS,
                SourceChecked(enis, p));
    StatefulMeans(v, p, groups, JUMPS);
    BoundariesMean(rs, v.enis, subnets, Stateful(), p, groups, JUMPS, Run(rs, Stateful(), p, groups, JUMPS));
  }
}
