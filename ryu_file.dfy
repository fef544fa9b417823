/**
  `ryu_file.py`: the plain SmartCityController, without statistics. Its
  `add_flow` defaults to idle_timeout=0, hard_timeout=0, so the forward rule
  of every pair never expires, and the catch-all rule is installed through
  `add_flow` with those defaults.
 */
module RyuFile {
  import opened Wrappers
  import opened Subnet
  import opened Classifier
  import opened OpenFlow
  import opened Rules

  /** The default timeouts of this file's `add_flow`. */
  const AddFlowDefaults: Timeouts := NeverExpire

  class SmartCityController {
    /** `self.datapaths`: the registered switches by id. */
    var datapaths: map<DatapathId, Datapath>
    /** Everything handed to a switch's `send_msg`, in the order it was sent. */
    var outbox: seq<Sent>

    constructor ()
      ensures datapaths == map[] && outbox == []
    {
      datapaths := map[];
      outbox := [];
    }

    /** `datapath.send_msg(m)`. */
    method SendMsg(dp: Datapath, m: Message)
      modifies this`outbox
      ensures outbox == old(outbox) + [Sent(dp.id, m)]
    {
      outbox := outbox + [Sent(dp.id, m)];
    }

    /** `switch_features_handler`: register, clear the table, add the catch-all rule through `add_flow`. */
    method SwitchFeaturesHandler(dp: Datapath)
      modifies this`datapaths, this`outbox
      ensures datapaths == old(datapaths)[dp.id := dp]
      ensures datapaths.Keys == old(datapaths).Keys + {dp.id}
      ensures outbox == old(outbox) + Addressed(dp.id, ConnectMessages)
    {
      datapaths := datapaths[dp.id := dp];
      ClearFlows(dp);
      var actions := [Output(PortController, Some(MaxLenNoBuffer))];
      AddFlow(dp, 0, MatchAll, actions);
    }

    /** `clear_flows`. */
    method ClearFlows(dp: Datapath)
      modifies this`outbox
      ensures outbox == old(outbox) + [Sent(dp.id, ClearFlowsMessage)]
    {
      SendMsg(dp, FlowDelete(MatchAll, PortAny, GroupAny));
    }

    /** `add_flow`, with this file's default timeouts 0/0. */
    method AddFlow(dp: Datapath, priority: nat, m: Match, actions: seq<Action>,
                   idleTimeout: nat := AddFlowDefaults.idle, hardTimeout: nat := AddFlowDefaults.hard)
      modifies this`outbox
      ensures outbox == old(outbox) + [Sent(dp.id, AddFlowMessage(priority, m, actions, Timeouts(idleTimeout, hardTimeout)))]
    {
      SendMsg(dp, FlowAdd(priority, m, actions, idleTimeout, hardTimeout));
    }

    /** `install_priority_flow`: the forward rule never expires, the reverse one gets 30/60. */
    method InstallPriorityFlow(dp: Datapath, src: Addr, dst: Addr, inPort: Uint32, queueId: nat, priority: nat)
      modifies this`outbox
      ensures outbox == old(outbox) + Addressed(dp.id, PriorityFlowMessages(AddFlowDefaults, src, dst, queueId, priority))
    {
      var actions := [SetQueue(queueId), Output(PortNormal, None)];
      AddFlow(dp, priority, IpPairMatch(src, dst), actions);
      AddFlow(dp, priority, IpPairMatch(dst, src), actions, idleTimeout := 30, hardTimeout := 60);
    }

    /** `install_default_flow`: priority 50, the forward rule never expires, the reverse one gets 20/40. */
    method InstallDefaultFlow(dp: Datapath, src: Addr, dst: Addr, inPort: Uint32)
      modifies this`outbox
      ensures outbox == old(outbox) + Addressed(dp.id, DefaultFlowMessages(AddFlowDefaults, src, dst))
    {
      var actions := [Output(PortNormal, None)];
      AddFlow(dp, 50, IpPairMatch(src, dst), actions);
      AddFlow(dp, 50, IpPairMatch(dst, src), actions, idleTimeout := 20, hardTimeout := 40);
    }

    /** `send_packet_out`. */
    method SendPacketOut(dp: Datapath, ev: PacketIn, inPort: Uint32, outputPort: Uint32)
      modifies this`outbox
      ensures outbox == old(outbox) + [Sent(dp.id, PacketOutMessage(ev, inPort, outputPort))]
    {
      var data := None;
      if ev.bufferId == NoBuffer {
        data := Some(ev.data);
      }
      SendMsg(dp, PacketOut(ev.bufferId, inPort, [Output(outputPort, None)], data));
    }

    /** `_packet_in_handler`. */
    method PacketInHandler(dp: Datapath, ev: PacketIn)
      modifies this`outbox
      ensures outbox == old(outbox) + Addressed(dp.id, PacketInMessages(AddFlowDefaults, ev))
    {
      var inPort := ev.inPort;
      if ev.ethType == EthTypeArp {
        SendPacketOut(dp, ev, inPort, PortFlood);
        return;
      }
      if ev.ethType != EthTypeIp {
        return;
      }
      if ev.ipv4.None? {
        return;
      }
      var src, dst := ev.ipv4.value.src, ev.ipv4.value.dst;
      var cls := Classify(Some(src), Some(dst));
      ghost var pair := ClassFlowMessages(AddFlowDefaults, cls, src, dst);
      match QueueOf(cls) {
        case Some(q) => InstallPriorityFlow(dp, src, dst, inPort, q, Priority(cls));
        case None => InstallDefaultFlow(dp, src, dst, inPort);
      }
      SendPacketOut(dp, ev, inPort, PortFlood);
      AddressedConcat(dp.id, pair, [PacketOutMessage(ev, inPort, PortFlood)]);
    }
  }

  /**
    In this file the forward rule of every pair never expires; the reverse
    rule gets 30/60 for a service class and 20/40, at priority 50, for Default.
   */
  lemma PacketInTimeouts(ev: PacketIn)
    requires ev.ethType == EthTypeIp && ev.ipv4.Some?
    ensures var r := PacketInMessages(AddFlowDefaults, ev);
            var c := Classify(Some(ev.ipv4.value.src), Some(ev.ipv4.value.dst));
            && r[0].FlowAdd? && r[1].FlowAdd?
            && r[0].idleTimeout == 0 && r[0].hardTimeout == 0
            && (c != Default ==> r[1].idleTimeout == 30 && r[1].hardTimeout == 60)
            && (c == Default ==> r[0].priority == 50 && r[1].idleTimeout == 20 && r[1].hardTimeout == 40)
  {
    var h := ev.ipv4.value;
    PairTimeouts(AddFlowDefaults, Classify(Some(h.src), Some(h.dst)), h.src, h.dst);
  }

  /**
    The rules of a pair share priority and action list and differ only in the
    swapped IPv4 addresses; the class is the first service network, in chain
    order, holding either address.
   */
  lemma PacketInRulePair(ev: PacketIn)
    requires ev.ethType == EthTypeIp && ev.ipv4.Some?
    ensures var r := PacketInMessages(AddFlowDefaults, ev);
            var h := ev.ipv4.value;
            var c := Classify(Some(h.src), Some(h.dst));
            && |r| == 3 && SymmetricPair(r[0], r[1])
            && r[0].flowMatch == IpPairMatch(h.src, h.dst)
            && r[1].flowMatch == IpPairMatch(h.dst, h.src)
            && r[0].priority == Priority(c) && r[0].actions == ClassActions(c)
            && c == TableClassify(Some(h.src), Some(h.dst))
  {
    var h := ev.ipv4.value;
    PacketInDispatch(AddFlowDefaults, ev);
    ClassifyIsTableLookup(Some(h.src), Some(h.dst));
  }
}
