/**
  The subnet classifier of `_packet_in_handler`: a fixed, first-match-wins
  chain over five /24 service networks that picks the traffic class of an
  address pair, with Default as the fallback.
 */
module Classifier {
  import opened Wrappers
  import opened Subnet

  datatype TrafficClass = Healthcare | PublicSafety | EnergyGrid | SmartHomes | Education | Default

  /** The five service networks, `10.2.0.0/24` … `10.6.0.0/24`. */
  const HealthcareNetwork: Option<Cidr> := Some(Cidr(0x0a02_0000, 24))
  const PublicSafetyNetwork: Option<Cidr> := Some(Cidr(0x0a03_0000, 24))
  const EnergyGridNetwork: Option<Cidr> := Some(Cidr(0x0a04_0000, 24))
  const SmartHomesNetwork: Option<Cidr> := Some(Cidr(0x0a05_0000, 24))
  const EducationNetwork: Option<Cidr> := Some(Cidr(0x0a06_0000, 24))

  /** The bases above are the dotted quads 10.2.0.0 … 10.6.0.0. */
  lemma NetworkBases()
    ensures HealthcareNetwork.value.base == Dotted(10, 2, 0, 0)
    ensures PublicSafetyNetwork.value.base == Dotted(10, 3, 0, 0)
    ensures EnergyGridNetwork.value.base == Dotted(10, 4, 0, 0)
    ensures SmartHomesNetwork.value.base == Dotted(10, 5, 0, 0)
    ensures EducationNetwork.value.base == Dotted(10, 6, 0, 0)
  {
  }

  /** `src` or `dst` lies in `network`: the test each branch of the chain makes. */
  predicate EitherIn(src: Option<Addr>, dst: Option<Addr>, network: Option<Cidr>) {
    IsInNetwork(src, network) || IsInNetwork(dst, network)
  }

  /** The if/elif chain of `_packet_in_handler`. */
  function Classify(src: Option<Addr>, dst: Option<Addr>): (c: TrafficClass)
    ensures IsInNetwork(src, HealthcareNetwork) ==> c == Healthcare
  {
    if EitherIn(src, dst, HealthcareNetwork) then Healthcare
    else if EitherIn(src, dst, PublicSafetyNetwork) then PublicSafety
    else if EitherIn(src, dst, EnergyGridNetwork) then EnergyGrid
    else if EitherIn(src, dst, SmartHomesNetwork) then SmartHomes
    else if EitherIn(src, dst, EducationNetwork) then Education
    else Default
  }

  /** The `(queue_id, priority)` passed to `install_priority_flow`; Default uses `install_default_flow`. */
  function QueueOf(c: TrafficClass): (q: Option<nat>)
    ensures q.None? <==> c == Default
  {
    match c
    case Healthcare => Some(1)
    case PublicSafety => Some(2)
    case EnergyGrid => Some(3)
    case SmartHomes => Some(4)
    case Education => Some(5)
    case Default => None
  }

  /** The rule priority of a class; 50 is the one `install_default_flow` uses. */
  function Priority(c: TrafficClass): nat {
    match c
    case Healthcare => 200
    case PublicSafety => 150
    case EnergyGrid => 100
    case SmartHomes => 80
    case Education => 60
    case Default => 50
  }

  /** The network a class is recognised by; Default has none. */
  function NetworkOf(c: TrafficClass): Option<Cidr> {
    match c
    case Healthcare => HealthcareNetwork
    case PublicSafety => PublicSafetyNetwork
    case EnergyGrid => EnergyGridNetwork
    case SmartHomes => SmartHomesNetwork
    case Education => EducationNetwork
    case Default => None
  }

  /** Position of a class in the chain: a smaller rank is tested earlier. */
  function Rank(c: TrafficClass): nat {
    match c
    case Healthcare => 0
    case PublicSafety => 1
    case EnergyGrid => 2
    case SmartHomes => 3
    case Education => 4
    case Default => 5
  }

  /**
    An independent, table-driven statement of the classifier: each row holds a
    class, its network, queue and priority, and the first row whose network
    holds either address wins.
   */
  datatype ServiceClass = ServiceClass(cls: TrafficClass, network: Option<Cidr>, queue: nat, priority: nat)

  const ServiceTable: seq<ServiceClass> := [
    ServiceClass(Healthcare, HealthcareNetwork, 1, 200),
    ServiceClass(PublicSafety, PublicSafetyNetwork, 2, 150),
    ServiceClass(EnergyGrid, EnergyGridNetwork, 3, 100),
    ServiceClass(SmartHomes, SmartHomesNetwork, 4, 80),
    ServiceClass(Education, EducationNetwork, 5, 60)
  ]

  const DefaultPriority: nat := 50

  /** Index of the first row whose network holds `src` or `dst`, if any. */
  function FirstMatch(table: seq<ServiceClass>, src: Option<Addr>, dst: Option<Addr>): (r: Option<nat>)
    ensures r.Some? ==> r.value < |table|
  {
    if table == [] then None
    else if EitherIn(src, dst, table[0].network) then Some(0)
    else match FirstMatch(table[1..], src, dst)
      case None => None
      case Some(i) => Some(i + 1)
  }

  /** First match wins: the row found is the least one that matches, and none is found only when no row matches. */
  lemma {:induction false} FirstMatchIsLeast(table: seq<ServiceClass>, src: Option<Addr>, dst: Option<Addr>)
    ensures FirstMatch(table, src, dst).None?
            <==> forall j :: 0 <= j < |table| ==> !EitherIn(src, dst, table[j].network)
    ensures FirstMatch(table, src, dst).Some? ==>
              var i := FirstMatch(table, src, dst).value;
              EitherIn(src, dst, table[i].network)
              && forall j :: 0 <= j < i ==> !EitherIn(src, dst, table[j].network)
  {
    if table != [] && !EitherIn(src, dst, table[0].network) {
      FirstMatchIsLeast(table[1..], src, dst);
      assert forall j :: 1 <= j < |table| ==> table[j] == table[1..][j - 1];
    }
  }

  /** Classification computed from the table. */
  function TableClassify(src: Option<Addr>, dst: Option<Addr>): TrafficClass {
    match FirstMatch(ServiceTable, src, dst)
    case None => Default
    case Some(i) => ServiceTable[i].cls
  }

  /** The table's columns are the chain's networks, queues, priorities and order. */
  lemma TableMatchesChain()
    ensures forall i :: 0 <= i < |ServiceTable| ==>
              && NetworkOf(ServiceTable[i].cls) == ServiceTable[i].network
              && QueueOf(ServiceTable[i].cls) == Some(ServiceTable[i].queue)
              && Priority(ServiceTable[i].cls) == ServiceTable[i].priority
              && Rank(ServiceTable[i].cls) == i
  {
  }

  /** First match over a five-row table, written out row by row. */
  lemma FirstMatchOfFive(t: seq<ServiceClass>, src: Option<Addr>, dst: Option<Addr>)
    requires |t| == 5
    ensures FirstMatch(t, src, dst)
            == if EitherIn(src, dst, t[0].network) then Some(0)
               else if EitherIn(src, dst, t[1].network) then Some(1)
               else if EitherIn(src, dst, t[2].network) then Some(2)
               else if EitherIn(src, dst, t[3].network) then Some(3)
               else if EitherIn(src, dst, t[4].network) then Some(4)
               else None
  {
    var t1, t2, t3, t4 := t[1..], t[2..], t[3..], t[4..];
    assert t1[1..] == t2 && t2[1..] == t3 && t3[1..] == t4 && t4[1..] == [];
    assert t1[0] == t[1] && t2[0] == t[2] && t3[0] == t[3] && t4[0] == t[4];
    var m4 := FirstMatch(t4, src, dst);
    FirstMatchStep(t4, src, dst);
    var m3 := FirstMatch(t3, src, dst);
    FirstMatchStep(t3, src, dst);
    var m2 := FirstMatch(t2, src, dst);
    FirstMatchStep(t2, src, dst);
    var m1 := FirstMatch(t1, src, dst);
    FirstMatchStep(t1, src, dst);
    FirstMatchStep(t, src, dst);
  }

  /** One row of the scan: a match at the head, or the rest of the table's answer shifted by one. */
  lemma FirstMatchStep(t: seq<ServiceClass>, src: Option<Addr>, dst: Option<Addr>)
    requires |t| > 0
    ensures FirstMatch(t, src, dst)
            == if EitherIn(src, dst, t[0].network) then Some(0)
               else if FirstMatch(t[1..], src, dst).None? then None
               else Some(FirstMatch(t[1..], src, dst).value + 1)
  {
  }

  /** The if/elif chain and the table-driven first match agree on every input. */
  lemma ClassifyIsTableLookup(src: Option<Addr>, dst: Option<Addr>)
    ensures Classify(src, dst) == TableClassify(src, dst)
  {
    FirstMatchOfFive(ServiceTable, src, dst);
  }

  /** Reversing the pair (the reverse rule's view of the flow) gives the same class. */
  lemma ClassifySymmetric(src: Option<Addr>, dst: Option<Addr>)
    ensures Classify(src, dst) == Classify(dst, src)
  {
  }

  /** `c`'s network holds the source or the destination. */
  predicate Hits(c: TrafficClass, src: Option<Addr>, dst: Option<Addr>) {
    EitherIn(src, dst, NetworkOf(c))
  }

  /** The chain, read as tests of `Hits` in rank order. */
  lemma ClassifyByHits(src: Option<Addr>, dst: Option<Addr>)
    ensures Classify(src, dst)
            == if Hits(Healthcare, src, dst) then Healthcare
               else if Hits(PublicSafety, src, dst) then PublicSafety
               else if Hits(EnergyGrid, src, dst) then EnergyGrid
               else if Hits(SmartHomes, src, dst) then SmartHomes
               else if Hits(Education, src, dst) then Education
               else Default
  {
  }

  /**
    A service class is chosen exactly when its network holds one of the
    addresses and no class earlier in the chain matched.
   */
  lemma ClassifyIff(src: Option<Addr>, dst: Option<Addr>, c: TrafficClass)
    requires c != Default
    ensures Classify(src, dst) == c
            <==> Hits(c, src, dst) && forall c' :: Rank(c') < Rank(c) ==> !Hits(c', src, dst)
  {
    ClassifyIsFirstHit(src, dst);
    var d := Classify(src, dst);
    if Hits(c, src, dst) && forall c' :: Rank(c') < Rank(c) ==> !Hits(c', src, dst) {
      assert Rank(d) == Rank(c);
    }
  }

  /** Default is chosen exactly when no service network holds either address. */
  lemma ClassifyDefaultIff(src: Option<Addr>, dst: Option<Addr>)
    ensures Classify(src, dst) == Default <==> forall c :: c != Default ==> !Hits(c, src, dst)
  {
    ClassifyIsFirstHit(src, dst);
  }

  /** The class chosen is the first one in rank order that hits, or Default when none does. */
  lemma ClassifyIsFirstHit(src: Option<Addr>, dst: Option<Addr>)
    ensures var d := Classify(src, dst);
            && (d != Default ==> Hits(d, src, dst))
            && (forall c' :: Rank(c') < Rank(d) ==> !Hits(c', src, dst))
  {
    ClassifyByHits(src, dst);
    FirstInRank(c => Hits(c, src, dst), Classify(src, dst));
  }

  /** For any test on classes, the first class in rank order that passes it is preceded only by classes that fail it. */
  lemma FirstInRank(h: TrafficClass -> bool, d: TrafficClass)
    requires d == if h(Healthcare) then Healthcare
                  else if h(PublicSafety) then PublicSafety
                  else if h(EnergyGrid) then EnergyGrid
                  else if h(SmartHomes) then SmartHomes
                  else if h(Education) then Education
                  else Default
    ensures d != Default ==> h(d)
    ensures forall c' :: Rank(c') < Rank(d) ==> !h(c')
  {
  }

  /** An address that does not parse never selects a class on its own. */
  lemma InvalidAddressIsNonMatch(dst: Option<Addr>)
    ensures Classify(None, dst) == Classify(dst, dst)
    ensures Classify(None, None) == Default
  {
  }

  /** The five service networks are disjoint, so an address selects at most one of them. */
  lemma NetworksDisjoint(a: Addr, c: TrafficClass, c': TrafficClass)
    requires c != c'
    ensures !(IsInNetwork(Some(a), NetworkOf(c)) && IsInNetwork(Some(a), NetworkOf(c')))
  {
    if c != Default && c' != Default {
      Slash24(NetworkOf(c).value, a);
      Slash24(NetworkOf(c').value, a);
    }
  }

  /**
    Priorities strictly follow the order of the chain and all lie above the
    priority-0 catch-all rule; the queues of the five service classes are distinct.
   */
  lemma PriorityFollowsChain(c: TrafficClass, c': TrafficClass)
    ensures Rank(c) < Rank(c') <==> Priority(c) > Priority(c')
    ensures Priority(c) >= DefaultPriority > 0
    ensures c != c' && c != Default && c' != Default ==> QueueOf(c) != QueueOf(c')
  {
  }
}
