/**
  The OpenFlow 1.3 messages the controller exchanges with a switch, reduced to
  the fields the controller sets or reads. The wire codec is not modelled:
  a switch channel is an outbox of addressed messages.
 */
module OpenFlow {
  import opened Wrappers
  import opened Subnet

  type Uint16 = x: int | 0 <= x < 0x1_0000
  type Uint32 = x: int | 0 <= x < 0x1_0000_0000
  type Byte = x: int | 0 <= x < 0x100

  /** Ether types (`ETH_TYPE_IP`, `ETH_TYPE_ARP`). */
  const EthTypeIp: Uint16 := 0x0800
  const EthTypeArp: Uint16 := 0x0806

  /** Reserved ports and ids of OpenFlow 1.3 (`OFPP_NORMAL`, `OFPP_FLOOD`, `OFPP_CONTROLLER`, `OFPP_ANY`, `OFPG_ANY`). */
  const PortNormal: Uint32 := 0xffff_fffa
  const PortFlood: Uint32 := 0xffff_fffb
  const PortController: Uint32 := 0xffff_fffd
  const PortAny: Uint32 := 0xffff_ffff
  const GroupAny: Uint32 := 0xffff_ffff

  /** `OFP_NO_BUFFER`: the packet is not buffered on the switch and travels in full. */
  const NoBuffer: Uint32 := 0xffff_ffff

  /** `OFPCML_NO_BUFFER`: the max_len that asks the switch to send the whole packet. */
  const MaxLenNoBuffer: Uint16 := 0xffff

  /** An `OFPMatch`; an absent field is a wildcard. */
  datatype Match = Match(ethType: Option<Uint16>, ipv4Src: Option<Addr>, ipv4Dst: Option<Addr>)

  /** `OFPMatch()` with no fields: matches every packet. */
  const MatchAll: Match := Match(None, None, None)

  /**
    `OFPActionSetQueue(queue_id)` and `OFPActionOutput(port[, max_len])`;
    `maxLen` is `None` when the controller leaves it to the codec's default.
   */
  datatype Action = SetQueue(queueId: nat) | Output(port: Uint32, maxLen: Option<Uint16>)

  /**
    The messages the controller sends: an `OFPFlowMod` that adds a rule whose
    one instruction applies `actions`, an `OFPFlowMod` with command
    `OFPFC_DELETE` and no instructions, and an `OFPPacketOut`.
   */
  datatype Message =
    | FlowAdd(priority: nat, flowMatch: Match, actions: seq<Action>, idleTimeout: nat, hardTimeout: nat)
    | FlowDelete(flowMatch: Match, outPort: Uint32, outGroup: Uint32)
    | PacketOut(bufferId: Uint32, inPort: Uint32, actions: seq<Action>, data: Option<seq<Byte>>)

  type DatapathId = nat

  /** A connected switch: its datapath id and the connection handle the controller talks to. */
  datatype Datapath = Datapath(id: DatapathId, conn: nat)

  /** A message handed to `send_msg` of the switch with id `dpid`. */
  datatype Sent = Sent(dpid: DatapathId, msg: Message)

  /** The IPv4 header as the packet library decodes it. */
  datatype Ipv4Header = Ipv4Header(src: Addr, dst: Addr)

  /**
    A packet-in event: buffer id, `match['in_port']`, the raw frame, and what
    the packet library decodes from it (the Ethernet type and, if present,
    the IPv4 header).
   */
  datatype PacketIn = PacketIn(bufferId: Uint32, inPort: Uint32, data: seq<Byte>, ethType: Uint16, ipv4: Option<Ipv4Header>)

  /** Messages sent to one switch, in order. */
  function Addressed(dpid: DatapathId, msgs: seq<Message>): (r: seq<Sent>)
    ensures |r| == |msgs|
    ensures forall i :: 0 <= i < |r| ==> r[i] == Sent(dpid, msgs[i])
  {
    if msgs == [] then [] else [Sent(dpid, msgs[0])] + Addressed(dpid, msgs[1..])
  }

  lemma AddressedConcat(dpid: DatapathId, a: seq<Message>, b: seq<Message>)
    ensures Addressed(dpid, a + b) == Addressed(dpid, a) + Addressed(dpid, b)
  {
    var l, r := Addressed(dpid, a + b), Addressed(dpid, a) + Addressed(dpid, b);
    forall i | 0 <= i < |l|
      ensures l[i] == r[i]
    {
      if i < |a| {
        assert (a + b)[i] == a[i];
      } else {
        assert (a + b)[i] == b[i - |a|];
      }
    }
  }
}
