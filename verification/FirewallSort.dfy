/** The renderer sorts with sort.Slice, which promises a sorted arrangement and nothing about ties. What
    the table means is the same for every sort that keeps this promise. */
module FirewallSort {
  import opened Sorting
  import opened Firewall
  import opened FirewallPolicy
  import opened FirewallRender

  /** A sort by this order: some sorted arrangement of its input. */
  ghost predicate Sorts<T(!new)>(f: seq<T> -> seq<T>, less: (T, T) -> bool) {
    forall xs :: multiset(f(xs)) == multiset(xs) && Sorted(f(xs), less)
  }

  /** The five sorts of the renderer. */
  datatype Sorters = Sorters(enis: seq<Eni> -> seq<Eni>, subnets: seq<Subnet> -> seq<Subnet>,
                             rules: seq<SgRule> -> seq<SgRule>, entries: seq<NaclRule> -> seq<NaclRule>,
                             mappings: seq<Mapping> -> seq<Mapping>)

  ghost predicate Correct(how: Sorters) {
    Sorts(how.enis, ByIface()) && Sorts(how.subnets, ByName()) && Sorts(how.rules, ById()) &&
    Sorts(how.entries, ByNumber()) && Sorts(how.mappings, ByInside())
  }

  // ---- The desired state as these sorts put it in order ----

  function OrderedEni(how: Sorters): Eni -> Eni {
    (e: Eni) => e.(ingress := how.rules(e.ingress), egress := how.rules(e.egress))
  }

  /** Each direction of an ACL is picked out and sorted for itself. */
  function OrderedSubnet(how: Sorters): Subnet -> Subnet {
    (s: Subnet) => Subnet(s.name, how.entries(Side(s.nacl, false)) + how.entries(Side(s.nacl, true)))
  }

  function Ordered(v: Desired, how: Sorters): Desired {
    v.(enis := Each(how.enis(v.enis), OrderedEni(how)), subnets := Each(how.subnets(v.subnets), OrderedSubnet(how)),
       nat11 := how.mappings(v.nat11))
  }

  lemma EntriesKept(how: Sorters, nacl: seq<NaclRule>)
    requires Sorts(how.entries, ByNumber())
    ensures multiset(how.entries(Side(nacl, false)) + how.entries(Side(nacl, true))) == multiset(nacl)
  {
    var a, b := how.entries(Side(nacl, false)), how.entries(Side(nacl, true));
    forall r ensures multiset(a + b)[r] == multiset(nacl)[r] {
      SideCounts(nacl, false, r);
      SideCounts(nacl, true, r);
    }
  }

  lemma OrderedEniShape(how: Sorters, e: Eni)
    requires Sorts(how.rules, ById())
    ensures ShapeOfEni(OrderedEni(how)(e)) == ShapeOfEni(e)
  {}

  lemma OrderedSubnetShape(how: Sorters, s: Subnet)
    requires Sorts(how.entries, ByNumber())
    ensures ShapeOfSubnet(OrderedSubnet(how)(s)) == ShapeOfSubnet(s)
  {
    EntriesKept(how, s.nacl);
  }

  lemma EachPermuted<T(!new), S(!new)>(xs: seq<T>, ys: seq<T>, f: T -> S)
    requires multiset(xs) == multiset(ys)
    ensures multiset(Each(xs, f)) == multiset(Each(ys, f))
  {
    var same := (x: T) => x;
    assert Each(xs, same) == xs && Each(ys, same) == ys;
    EachAgrees(xs, ys, same, f);
  }

  lemma EachTwice<T, S>(xs: seq<T>, f: T -> T, g: T -> S)
    requires forall x :: x in xs ==> g(f(x)) == g(x)
    ensures Each(Each(xs, f), g) == Each(xs, g)
  {
    forall i | 0 <= i < |xs| ensures Each(Each(xs, f), g)[i] == Each(xs, g)[i] {
      assert xs[i] in xs;
    }
  }

  lemma OrderedIsRearranged(v: Desired, how: Sorters)
    requires Correct(how)
    ensures Rearranged(v, Ordered(v, how))
  {
    var enis, subnets := how.enis(v.enis), how.subnets(v.subnets);
    forall e | e in enis ensures ShapeOfEni(OrderedEni(how)(e)) == ShapeOfEni(e) {
      OrderedEniShape(how, e);
    }
    forall s | s in subnets ensures ShapeOfSubnet(OrderedSubnet(how)(s)) == ShapeOfSubnet(s) {
      OrderedSubnetShape(how, s);
    }
    EachTwice(enis, OrderedEni(how), ShapeOfEni);
    EachTwice(subnets, OrderedSubnet(how), ShapeOfSubnet);
    EachPermuted(v.enis, enis, ShapeOfEni);
    EachPermuted(v.subnets, subnets, ShapeOfSubnet);
  }

  // ---- It repeats no key, and there is nothing left to sort ----

  lemma OrderedEniFrom(v: Desired, how: Sorters, a: Eni) returns (e: Eni)
    requires Correct(how) && a in Ordered(v, how).enis
    ensures e in v.enis && OrderedEni(how)(e) == a
  {
    e := EachComesFrom(how.enis(v.enis), OrderedEni(how), a);
    SameContents(how.enis(v.enis), v.enis);
  }

  lemma OrderedSubnetFrom(v: Desired, how: Sorters, a: Subnet) returns (s: Subnet)
    requires Correct(how) && a in Ordered(v, how).subnets
    ensures s in v.subnets && OrderedSubnet(how)(s) == a
  {
    s := EachComesFrom(how.subnets(v.subnets), OrderedSubnet(how), a);
    SameContents(how.subnets(v.subnets), v.subnets);
  }

  lemma OrderedIsKeyed(v: Desired, how: Sorters)
    requires WellKeyed(v) && Correct(how)
    ensures WellKeyed(Ordered(v, how))
  {
    var w := Ordered(v, how);
    forall a, b | a in w.enis && b in w.enis && a.iface == b.iface ensures a == b {
      var x := OrderedEniFrom(v, how, a);
      var y := OrderedEniFrom(v, how, b);
    }
    forall a, b | a in w.subnets && b in w.subnets && a.name == b.name ensures a == b {
      var x := OrderedSubnetFrom(v, how, a);
      var y := OrderedSubnetFrom(v, how, b);
    }
    forall s | s in w.subnets ensures NumbersDiffer(s.nacl) {
      var x := OrderedSubnetFrom(v, how, s);
      EntriesKept(how, x.nacl);
      NumbersStayApart(x.nacl, s.nacl);
    }
  }

  lemma {:induction false} SortedStays<T>(xs: seq<T>, less: (T, T) -> bool)
    requires Sorted(xs, less)
    ensures Sort(xs, less) == xs
  {
    if xs != [] {
      SortedStays(xs[1..], less);
      assert xs == [xs[0]] + xs[1..];
    }
  }

  lemma {:induction false} SideOfSides(a: seq<NaclRule>, b: seq<NaclRule>, egress: bool)
    requires (forall r :: r in a ==> r.egress != egress) && forall r :: r in b ==> r.egress == egress
    ensures Side(a + b, egress) == b
  {
    if a != [] {
      assert (a + b)[0] == a[0] && (a + b)[1..] == a[1..] + b;
      SideOfSides(a[1..], b, egress);
    } else {
      assert a + b == b;
      SideOfOwn(b, egress);
    }
  }

  lemma {:induction false} SideOfOwn(b: seq<NaclRule>, egress: bool)
    requires forall r :: r in b ==> r.egress == egress
    ensures Side(b, egress) == b
  {
    if b != [] {
      assert b == [b[0]] + b[1..];
      SideOfOwn(b[1..], egress);
    }
  }

  lemma {:induction false} SideOfFront(a: seq<NaclRule>, b: seq<NaclRule>, egress: bool)
    requires (forall r :: r in a ==> r.egress == egress) && forall r :: r in b ==> r.egress != egress
    ensures Side(a + b, egress) == a
  {
    if a != [] {
      assert (a + b)[0] == a[0] && (a + b)[1..] == a[1..] + b;
      SideOfFront(a[1..], b, egress);
      assert a == [a[0]] + a[1..];
    } else {
      assert a + b == b;
      SideOfOther(b, egress);
    }
  }

  lemma {:induction false} SideOfOther(b: seq<NaclRule>, egress: bool)
    requires forall r :: r in b ==> r.egress != egress
    ensures Side(b, egress) == []
  {
    if b != [] {
      SideOfOther(b[1..], egress);
    }
  }

  lemma SidesStay(how: Sorters, nacl: seq<NaclRule>)
    requires Sorts(how.entries, ByNumber())
    ensures
      var both := how.entries(Side(nacl, false)) + how.entries(Side(nacl, true));
      Side(both, false) == how.entries(Side(nacl, false)) && Side(both, true) == how.entries(Side(nacl, true))
  {
    var a, b := how.entries(Side(nacl, false)), how.entries(Side(nacl, true));
    SideMeans(nacl, false);
    SideMeans(nacl, true);
    SameContents(a, Side(nacl, false));
    SameContents(b, Side(nacl, true));
    SideOfFront(a, b, false);
    SideOfSides(a, b, true);
  }

  /** The table lists what these sorts put in order, as they put it: sorting it again moves nothing. */
  lemma NothingLeftToSort(v: Desired, how: Sorters)
    requires Correct(how)
    ensures
      var w := Ordered(v, how);
      && Sort(w.enis, ByIface()) == w.enis && Sort(w.subnets, ByName()) == w.subnets &&
         Sort(w.nat11, ByInside()) == w.nat11
      && (forall e :: e in w.enis ==> Sort(e.ingress, ById()) == e.ingress && Sort(e.egress, ById()) == e.egress)
      && (forall s :: s in w.subnets ==>
            Sort(Side(s.nacl, false), ByNumber()) == Side(s.nacl, false) &&
            Sort(Side(s.nacl, true), ByNumber()) == Side(s.nacl, true))
  {
    var w := Ordered(v, how);
    SortedStays(w.enis, ByIface());
    SortedStays(w.subnets, ByName());
    SortedStays(w.nat11, ByInside());
    forall e | e in w.enis ensures Sort(e.ingress, ById()) == e.ingress && Sort(e.egress, ById()) == e.egress {
      var f := OrderedEniFrom(v, how, e);
      SortedStays(e.ingress, ById());
      SortedStays(e.egress, ById());
    }
    forall s | s in w.subnets
      ensures Sort(Side(s.nacl, false), ByNumber()) == Side(s.nacl, false)
      ensures Sort(Side(s.nacl, true), ByNumber()) == Side(s.nacl, true)
    {
      var t := OrderedSubnetFrom(v, how, s);
      SidesStay(how, t.nacl);
      SortedStays(Side(s.nacl, false), ByNumber());
      SortedStays(Side(s.nacl, true), ByNumber());
    }
  }

  /** Whatever correct sort the renderer uses, and however rule ids repeat, its table forwards exactly
      what the policy of the desired state allows. */
  lemma AnySortPreservesMeaning(v: Desired, how: Sorters, p: Packet, groups: Groups)
    requires WellKeyed(v) && Correct(how)
    ensures Forwards(Rendered(Ordered(v, how)), p, groups) <==> Allowed(v, p, groups)
  {
    OrderedIsKeyed(v, how);
    OrderedIsRearranged(v, how);
    CompilationPreservesMeaning(Ordered(v, how), p, groups);
    RearrangedMeansSame(v, Ordered(v, how), p, groups);
  }

  /** And when no key repeats, all correct sorts give the same table. */
  lemma AnySortRendersAlike(v: Desired, how: Sorters)
    requires FullyKeyed(v) && Correct(how)
    ensures Rendered(Ordered(v, how)) == Rendered(v)
  {
    OrderedIsRearranged(v, how);
    RenderingIsCanonical(v, Ordered(v, how));
  }

  // ---- There are such sorts ----

  /** A strict order in which elements may tie. */
  ghost predicate WeakOrder<T(!new)>(less: (T, T) -> bool) {
    && (forall a, b {:trigger less(a, b)} :: less(a, b) ==> !less(b, a))
    && (forall a, b, c {:trigger less(a, c), less(b, c)} :: less(a, c) ==> less(a, b) || less(b, c))
  }

  lemma {:induction false} PutStaysSorted<T(!new)>(x: T, xs: seq<T>, less: (T, T) -> bool)
    requires WeakOrder(less) && Sorted(xs, less)
    ensures Sorted(Put(x, xs, less), less)
  {
    if xs != [] {
      if less(xs[0], x) {
        PutStaysSorted(x, xs[1..], less);
        PutAfter(xs[0], x, xs[1..], less);
        ConsSorted(xs[0], Put(x, xs[1..], less), less);
      } else {
        forall j | 0 <= j < |xs| ensures !less(xs[j], x) {
          assert j > 0 ==> !less(xs[j], xs[0]);
        }
        ConsSorted(x, xs, less);
      }
    }
  }

  lemma {:induction false} SortIsSorted<T(!new)>(xs: seq<T>, less: (T, T) -> bool)
    requires WeakOrder(less)
    ensures Sorted(Sort(xs, less), less)
  {
    if xs != [] {
      SortIsSorted(xs[1..], less);
      PutStaysSorted(xs[0], Sort(xs[1..], less), less);
    }
  }

  lemma SortSorts<T(!new)>(less: (T, T) -> bool)
    requires WeakOrder(less)
    ensures Sorts((xs: seq<T>) => Sort(xs, less), less)
  {
    forall xs: seq<T> ensures multiset(Sort(xs, less)) == multiset(xs) && Sorted(Sort(xs, less), less) {
      SortContents(xs, less);
      SortIsSorted(xs, less);
    }
  }

  lemma BeforeIsWeak(a: string, b: string, c: string)
    ensures Before(a, b) ==> !Before(b, a)
    ensures Before(a, c) ==> Before(a, b) || Before(b, c)
  {
    BeforeTotal(a, b);
    BeforeTotal(b, c);
    if Before(a, c) && Before(b, a) {
      BeforeTransitive(b, a, c);
    }
  }

  lemma OrdersAreWeak()
    ensures WeakOrder(ByIface()) && WeakOrder(ByName()) && WeakOrder(ById()) && WeakOrder(ByNumber()) &&
            WeakOrder(ByInside())
  {
    forall a, b, c
      ensures (Before(a, b) ==> !Before(b, a)) && (Before(a, c) ==> Before(a, b) || Before(b, c))
    {
      BeforeIsWeak(a, b, c);
    }
  }

  function Insertion(): Sorters {
    Sorters(xs => Sort(xs, ByIface()), xs => Sort(xs, ByName()), xs => Sort(xs, ById()), xs => Sort(xs, ByNumber()),
            xs => Sort(xs, ByInside()))
  }

  lemma InsertionIsCorrect()
    ensures Correct(Insertion())
  {
    OrdersAreWeak();
    SortSorts(ByIface());
    SortSorts(ByName());
    SortSorts(ById());
    SortSorts(ByNumber());
    SortSorts(ByInside());
  }
}
