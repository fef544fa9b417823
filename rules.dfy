/**
  The messages each handler of the controller sends, as functions of the
  event. Both controller files send the same messages except for the default
  timeouts of `add_flow`, which are a parameter here.
 */
module Rules {
  import opened Wrappers
  import opened Subnet
  import opened Classifier
  import opened OpenFlow

  /** An (idle_timeout, hard_timeout) pair in seconds; 0 means the rule never expires. */
  datatype Timeouts = Timeouts(idle: nat, hard: nat)

  const NeverExpire: Timeouts := Timeouts(0, 0)

  /** The explicit timeouts of the reverse rule of `install_priority_flow` and of `install_default_flow`. */
  const PriorityReverseTimeouts: Timeouts := Timeouts(30, 60)
  const DefaultReverseTimeouts: Timeouts := Timeouts(20, 40)

  /** The flow-mod `add_flow(datapath, priority, match, actions, idle, hard)` sends. */
  function AddFlowMessage(priority: nat, m: Match, actions: seq<Action>, t: Timeouts): Message {
    FlowAdd(priority, m, actions, t.idle, t.hard)
  }

  /** `OFPMatch(eth_type=ETH_TYPE_IP, ipv4_src=src, ipv4_dst=dst)`. */
  function IpPairMatch(src: Addr, dst: Addr): Match {
    Match(Some(EthTypeIp), Some(src), Some(dst))
  }

  /** The same match with source and destination exchanged. */
  function Swapped(m: Match): Match {
    Match(m.ethType, m.ipv4Dst, m.ipv4Src)
  }

  /** The action list of a class: set the class's queue, then forward normally; Default only forwards. */
  function ClassActions(c: TrafficClass): (r: seq<Action>)
    ensures |r| == if c == Default then 1 else 2
    ensures r[|r| - 1] == Output(PortNormal, None)
    ensures forall q: nat :: SetQueue(q) in r <==> QueueOf(c) == Some(q)
  {
    match QueueOf(c)
    case Some(q) => [SetQueue(q), Output(PortNormal, None)]
    case None => [Output(PortNormal, None)]
  }

  /**
    Two rule installs that form a symmetric pair: equal priority and action
    list, both on IPv4, the second matching the first's addresses swapped.
   */
  predicate SymmetricPair(fwd: Message, rev: Message) {
    && fwd.FlowAdd? && rev.FlowAdd?
    && fwd.priority == rev.priority
    && fwd.actions == rev.actions
    && fwd.flowMatch.ethType == Some(EthTypeIp)
    && rev.flowMatch == Swapped(fwd.flowMatch)
  }

  /** `install_priority_flow`: the forward rule takes `add_flow`'s defaults, the reverse one 30/60. */
  function PriorityFlowMessages(defaults: Timeouts, src: Addr, dst: Addr, queueId: nat, priority: nat): seq<Message> {
    var actions := [SetQueue(queueId), Output(PortNormal, None)];
    [ AddFlowMessage(priority, IpPairMatch(src, dst), actions, defaults),
      AddFlowMessage(priority, IpPairMatch(dst, src), actions, PriorityReverseTimeouts) ]
  }

  /** `install_default_flow`: priority 50, forward normally, the reverse rule 20/40. */
  function DefaultFlowMessages(defaults: Timeouts, src: Addr, dst: Addr): seq<Message> {
    var actions := [Output(PortNormal, None)];
    [ AddFlowMessage(DefaultPriority, IpPairMatch(src, dst), actions, defaults),
      AddFlowMessage(DefaultPriority, IpPairMatch(dst, src), actions, DefaultReverseTimeouts) ]
  }

  /** The rule pair installed for a flow of class `c`. */
  function ClassFlowMessages(defaults: Timeouts, c: TrafficClass, src: Addr, dst: Addr): (r: seq<Message>)
    ensures |r| == 2 && SymmetricPair(r[0], r[1])
    ensures r[0].flowMatch == IpPairMatch(src, dst) && r[1].flowMatch == IpPairMatch(dst, src)
    ensures r[0].priority == Priority(c) && r[0].actions == ClassActions(c)
  {
    match QueueOf(c)
    case Some(q) => PriorityFlowMessages(defaults, src, dst, q, Priority(c))
    case None => DefaultFlowMessages(defaults, src, dst)
  }

  /**
    The forward rule gets `add_flow`'s default timeouts whatever the class;
    the reverse rule gets 30/60 for the five service classes and 20/40 for Default.
   */
  lemma PairTimeouts(defaults: Timeouts, c: TrafficClass, src: Addr, dst: Addr)
    ensures var r := ClassFlowMessages(defaults, c, src, dst);
            && Timeouts(r[0].idleTimeout, r[0].hardTimeout) == defaults
            && Timeouts(r[1].idleTimeout, r[1].hardTimeout)
               == if c == Default then DefaultReverseTimeouts else PriorityReverseTimeouts
  {
  }

  /**
    `send_packet_out`: one output action to `outPort` from `inPort`; the raw
    frame travels along exactly when the switch did not buffer it.
   */
  function PacketOutMessage(ev: PacketIn, inPort: Uint32, outPort: Uint32): (r: Message)
    ensures r.PacketOut? && r.bufferId == ev.bufferId && r.inPort == inPort
    ensures r.actions == [Output(outPort, None)]
    ensures r.data.Some? <==> ev.bufferId == NoBuffer
    ensures r.data.Some? ==> r.data.value == ev.data
  {
    PacketOut(ev.bufferId, inPort, [Output(outPort, None)], if ev.bufferId == NoBuffer then Some(ev.data) else None)
  }

  /** `_packet_in_handler`: what the controller sends for one packet-in. */
  function PacketInMessages(defaults: Timeouts, ev: PacketIn): (r: seq<Message>)
    ensures |r| == 0 || |r| == 1 || |r| == 3
    ensures r != [] ==> r[|r| - 1] == PacketOutMessage(ev, ev.inPort, PortFlood)
  {
    if ev.ethType == EthTypeArp then
      [PacketOutMessage(ev, ev.inPort, PortFlood)]
    else if ev.ethType != EthTypeIp then
      []
    else match ev.ipv4
      case None => []
      case Some(h) =>
        ClassFlowMessages(defaults, Classify(Some(h.src), Some(h.dst)), h.src, h.dst)
        + [PacketOutMessage(ev, ev.inPort, PortFlood)]
  }

  /**
    Dispatch by Ethernet type: ARP is only flooded; any other non-IP frame,
    or an IP frame without an IPv4 header, sends nothing; an IPv4 frame sends
    the symmetric rule pair of its class and then floods the packet.
   */
  lemma PacketInDispatch(defaults: Timeouts, ev: PacketIn)
    ensures var r := PacketInMessages(defaults, ev);
            && (ev.ethType == EthTypeArp <==> r == [PacketOutMessage(ev, ev.inPort, PortFlood)])
            && (r == [] <==> ev.ethType != EthTypeArp && (ev.ethType != EthTypeIp || ev.ipv4.None?))
            && (ev.ethType == EthTypeIp && ev.ipv4.Some? <==> |r| == 3)
    ensures var r := PacketInMessages(defaults, ev);
            ev.ethType == EthTypeIp && ev.ipv4.Some? ==>
              var h := ev.ipv4.value;
              var c := Classify(Some(h.src), Some(h.dst));
              && SymmetricPair(r[0], r[1])
              && r[0].flowMatch == IpPairMatch(h.src, h.dst)
              && r[0].priority == Priority(c)
              && r[0].actions == ClassActions(c)
              && r[2] == PacketOutMessage(ev, ev.inPort, PortFlood)
  {
  }

  /** `clear_flows`: delete every rule, whatever its output port or group. */
  const ClearFlowsMessage: Message := FlowDelete(MatchAll, PortAny, GroupAny)

  /** The rule `switch_features_handler` installs: priority 0, match all, send whole packets to the controller, never expire. */
  const CatchAllRule: Message :=
    AddFlowMessage(0, MatchAll, [Output(PortController, Some(MaxLenNoBuffer))], NeverExpire)

  /** `switch_features_handler`: delete everything, then install the catch-all rule. */
  const ConnectMessages: seq<Message> := [ClearFlowsMessage, CatchAllRule]

  /**
    On connection the switch first loses every rule, whatever its port or
    group, and then gets the catch-all: the lowest priority, no field
    matched, whole packets to the controller, no expiry.
   */
  lemma ConnectInstallsCatchAll()
    ensures |ConnectMessages| == 2
    ensures var d := ConnectMessages[0];
            d.FlowDelete? && d.flowMatch == MatchAll && d.outPort == PortAny && d.outGroup == GroupAny
    ensures var r := ConnectMessages[1];
            && r == CatchAllRule && r.FlowAdd? && r.priority == 0
            && r.flowMatch.ethType.None? && r.flowMatch.ipv4Src.None? && r.flowMatch.ipv4Dst.None?
            && r.actions == [Output(PortController, Some(MaxLenNoBuffer))]
            && r.idleTimeout == 0 && r.hardTimeout == 0
  {
  }

  /**
    Packet-in handling never deletes a rule and every rule it installs has a
    priority strictly above the catch-all's, so the catch-all installed on
    connection stays in place and only traffic no installed pair matches
    reaches the controller.
   */
  lemma PacketInKeepsCatchAll(defaults: Timeouts, ev: PacketIn, i: nat)
    requires i < |PacketInMessages(defaults, ev)|
    ensures !PacketInMessages(defaults, ev)[i].FlowDelete?
    ensures PacketInMessages(defaults, ev)[i].FlowAdd? ==>
              PacketInMessages(defaults, ev)[i].priority > CatchAllRule.priority
  {
    var r := PacketInMessages(defaults, ev);
    if ev.ethType == EthTypeIp && ev.ipv4.Some? && i < 2 {
      var h := ev.ipv4.value;
      PriorityFollowsChain(Classify(Some(h.src), Some(h.dst)), Default);
    }
  }
}
